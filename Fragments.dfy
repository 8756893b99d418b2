/** The pieces of markup generateHTML assembles before it fills the page:
    the skill and technology tags, one block per experience, education and
    project entry, the list texts with their empty-list sentences, and the
    links and contact rows that are left out when their field is empty.
    Profile text is inserted as it is; nothing is escaped. */
module Fragments {
  import opened JsString
  import opened TemplateLiteral
  import opened PortfolioData
  import opened Dates

  /** `value || fallback` on strings: the value unless it is empty. */
  function Or(value: string, fallback: string): string
  {
    if value != "" then value else fallback
  }

  /** `x` is the middle of a + x + b. */
  lemma InMiddle(a: string, x: string, b: string)
    ensures Contains(a + x + b, x)
  {
    assert (a + x + b)[|a|..] == x + b;
  }

  // ---------------------------------------------------------------- tag lists

  const SkillOpen: string := "<span class=\"skill-tag\">"
  const TechOpen: string := "<span class=\"tech-tag\">"
  const TagClose: string := "</span>"
  const SkillSeparator: string := "\n      "
  const TechSeparator: string := "\n          "

  /** skillsHTML: one skill-tag span per skill, joined by a line break and
      six spaces; no skills give the empty text. */
  function SkillsHtml(skills: seq<string>): (r: string)
    ensures r == "" <==> skills == []
    ensures skills != [] ==> SkillOpen + skills[0] + TagClose <= r
  {
    Join(Wrap(SkillOpen, TagClose, skills), SkillSeparator)
  }

  /** The tech-tag spans of a project, joined by a line break and ten spaces. */
  function TechTags(technologies: seq<string>): (r: string)
    ensures r == "" <==> technologies == []
    ensures technologies != [] ==> TechOpen + technologies[0] + TagClose <= r
  {
    Join(Wrap(TechOpen, TagClose, technologies), TechSeparator)
  }

  /** The skill tags are exactly one span per skill, in input order: when no
      skill contains '<', reading each span's content up to the next '<'
      gives the skills back. */
  lemma SkillTagsReadBack(skills: seq<string>)
    requires forall k :: 0 <= k < |skills| ==> '<' !in skills[k]
    ensures Unfill(TagListParts(SkillOpen, TagClose, SkillSeparator, |skills|), SkillsHtml(skills))
            == Some(skills)
  {
    TagListReadBack(SkillOpen, TagClose, SkillSeparator, skills);
  }

  /** Each skill's span sits at its own position, the spans in input order. */
  lemma SkillTagsInOrder(skills: seq<string>)
    ensures var tags := Wrap(SkillOpen, TagClose, skills);
            && (forall k :: 0 <= k < |skills| ==>
                  OccursAt(SkillsHtml(skills), SkillOpen + skills[k] + TagClose, JoinPos(tags, SkillSeparator, k)))
            && (forall i, j :: 0 <= i < j < |skills| ==>
                  JoinPos(tags, SkillSeparator, i) + |tags[i]| + |SkillSeparator| <= JoinPos(tags, SkillSeparator, j))
  {
    JoinBlocks(Wrap(SkillOpen, TagClose, skills), SkillSeparator);
  }

  /** The technology tags of a project read back the same way. */
  lemma TechTagsReadBack(technologies: seq<string>)
    requires forall k :: 0 <= k < |technologies| ==> '<' !in technologies[k]
    ensures Unfill(TagListParts(TechOpen, TagClose, TechSeparator, |technologies|), TechTags(technologies))
            == Some(technologies)
  {
    TagListReadBack(TechOpen, TagClose, TechSeparator, technologies);
  }

  /** Each technology's span sits at its own position, in input order. */
  lemma TechTagsInOrder(technologies: seq<string>)
    ensures var tags := Wrap(TechOpen, TagClose, technologies);
            && (forall k :: 0 <= k < |technologies| ==>
                  OccursAt(TechTags(technologies), TechOpen + technologies[k] + TagClose, JoinPos(tags, TechSeparator, k)))
            && (forall i, j :: 0 <= i < j < |technologies| ==>
                  JoinPos(tags, TechSeparator, i) + |tags[i]| + |TechSeparator| <= JoinPos(tags, TechSeparator, j))
  {
    JoinBlocks(Wrap(TechOpen, TagClose, technologies), TechSeparator);
  }

  // ---------------------------------------------------------- omitted if empty

  /** The e-mail link of the header, or nothing without an address. */
  function EmailLink(email: string): (r: string)
    ensures r == "" <==> email == ""
    ensures email != "" ==> Contains(r, "href=\"mailto:" + email + "\"")
  {
    if email == "" then ""
    else
      InMiddle("<a ", "href=\"mailto:" + email + "\"", " class=\"social-link email\">Email</a>");
      "<a " + ("href=\"mailto:" + email + "\"") + " class=\"social-link email\">Email</a>"
  }

  /** The LinkedIn link of the header, or nothing without a profile address. */
  function LinkedInLink(linkedin: string): (r: string)
    ensures r == "" <==> linkedin == ""
    ensures linkedin != "" ==> Contains(r, "href=\"" + linkedin + "\"")
  {
    if linkedin == "" then ""
    else
      var link := "<a " + ("href=\"" + linkedin + "\"")
        + " target=\"_blank\" rel=\"noopener noreferrer\" class=\"social-link linkedin\">LinkedIn</a>";
      InMiddle("<a ", "href=\"" + linkedin + "\"",
        " target=\"_blank\" rel=\"noopener noreferrer\" class=\"social-link linkedin\">LinkedIn</a>");
      link
  }

  /** The GitHub link of the header, or nothing without a profile address. */
  function GitHubLink(github: string): (r: string)
    ensures r == "" <==> github == ""
    ensures github != "" ==> Contains(r, "href=\"" + github + "\"")
  {
    if github == "" then ""
    else
      var link := "<a " + ("href=\"" + github + "\"")
        + " target=\"_blank\" rel=\"noopener noreferrer\" class=\"social-link github\">GitHub</a>";
      InMiddle("<a ", "href=\"" + github + "\"",
        " target=\"_blank\" rel=\"noopener noreferrer\" class=\"social-link github\">GitHub</a>");
      link
  }

  const RowOpen: string := "<div class=\"contact-item\"><span class=\"label\">"

  /** The Email row of the contact section: the address as link text and as
      link target; nothing without an address. */
  function EmailRow(email: string): (r: string)
    ensures r == "" <==> email == ""
    ensures email != "" ==> Contains(r, "<a href=\"mailto:" + email + "\">" + email + "</a>")
  {
    if email == "" then ""
    else
      var link := "<a href=\"mailto:" + email + "\">" + email + "</a>";
      InMiddle(RowOpen + "Email:</span> ", link, "</div>");
      RowOpen + "Email:</span> " + link + "</div>"
  }

  /** The Phone row, or nothing without a number. */
  function PhoneRow(phone: string): (r: string)
    ensures r == "" <==> phone == ""
    ensures phone != "" ==> Contains(r, "Phone:</span> " + phone + "</div>")
  {
    if phone == "" then ""
    else
      InMiddle(RowOpen, "Phone:</span> " + phone + "</div>", "");
      assert RowOpen + ("Phone:</span> " + phone + "</div>") + "" == RowOpen + "Phone:</span> " + phone + "</div>";
      RowOpen + "Phone:</span> " + phone + "</div>"
  }

  /** The Location row, or nothing without a location. */
  function LocationRow(location: string): (r: string)
    ensures r == "" <==> location == ""
    ensures location != "" ==> Contains(r, "Location:</span> " + location + "</div>")
  {
    if location == "" then ""
    else
      InMiddle(RowOpen, "Location:</span> " + location + "</div>", "");
      assert RowOpen + ("Location:</span> " + location + "</div>") + "" == RowOpen + "Location:</span> " + location + "</div>";
      RowOpen + "Location:</span> " + location + "</div>"
  }

  /** A project's image, with the title as alternative text, or nothing
      without an image address. */
  function ImageFragment(p: Project): (r: string)
    ensures r == "" <==> p.image == ""
    ensures p.image != "" ==> Contains(r, "<img src=\"" + p.image + "\"")
  {
    if p.image == "" then ""
    else
      var img := "<img src=\"" + p.image + "\"";
      var rest := " alt=\"" + p.title + "\" class=\"project-image\" loading=\"lazy\">";
      InMiddle("", img, rest);
      assert "" + img + rest == img + rest;
      img + rest
  }

  /** A project's "View Project" link, or nothing without a link address. */
  function LinkFragment(p: Project): (r: string)
    ensures r == "" <==> p.link == ""
    ensures p.link != "" ==> Contains(r, "href=\"" + p.link + "\"")
  {
    if p.link == "" then ""
    else
      InMiddle("<a ", "href=\"" + p.link + "\"",
        " target=\"_blank\" rel=\"noopener noreferrer\" class=\"project-link\">View Project</a>");
      "<a " + ("href=\"" + p.link + "\"")
        + " target=\"_blank\" rel=\"noopener noreferrer\" class=\"project-link\">View Project</a>"
  }

  // ------------------------------------------------------------- entry blocks

  const ExperienceOpen: string := "\n    <div class=\"experience-item\">"

  /** The literal parts of an experience block around its five substitutions:
      position, company, start date, end date and description. */
  const ExperienceParts: seq<string> := [
    ExperienceOpen + "\n      <div class=\"experience-header\">\n        " + "<h3>",
    "</h3>" + "\n        " + "<p class=\"company\">",
    "</p>" + "\n        " + "<p class=\"date\">",
    " - ",
    "</p>" + "\n      </div>\n      " + "<p class=\"description\">",
    "</p>" + "\n    </div>\n  "]

  /** The block of one experience. The start date is formatted; the end
      date is printed as entered, `Present` when it is empty. What the block
      shows is stated by ExperienceItemShows and ExperienceEndDateRaw. */
  function ExperienceItem(e: Experience, otherDate: string -> string): (r: string)
    ensures ExperienceOpen <= r
  {
    Fill(ExperienceParts,
         [e.position, e.company, FormatDate(e.startDate, otherDate), Or(e.endDate, "Present"), e.description])
  }

  /** Every field of an experience appears verbatim in its place in the block. */
  lemma ExperienceItemShows(e: Experience, otherDate: string -> string)
    ensures var r := ExperienceItem(e, otherDate);
            && Contains(r, "<h3>" + e.position + "</h3>")
            && Contains(r, "<p class=\"company\">" + e.company + "</p>")
            && Contains(r, "<p class=\"date\">" + (FormatDate(e.startDate, otherDate) + " - " + Or(e.endDate, "Present")) + "</p>")
            && Contains(r, "<p class=\"description\">" + e.description + "</p>")
  {
    var ps := ExperienceParts;
    var hs := [e.position, e.company, FormatDate(e.startDate, otherDate), Or(e.endDate, "Present"), e.description];
    var r := Fill(ps, hs);
    HoleInContext(ps, hs, 0);
    ContainsInner(r, ps[0], hs[0], ps[1], "<h3>", "</h3>");
    HoleInContext(ps, hs, 1);
    ContainsInner(r, ps[1], hs[1], ps[2], "<p class=\"company\">", "</p>");
    TwoHolesInContext(ps, hs, 2);
    ContainsInner(r, ps[2], hs[2] + ps[3] + hs[3], ps[4], "<p class=\"date\">", "</p>");
    HoleInContext(ps, hs, 4);
    ContainsInner(r, ps[4], hs[4], ps[5], "<p class=\"description\">", "</p>");
  }

  const EducationOpen: string := "\n    <div class=\"education-item\">"

  /** The literal parts of an education block around its five substitutions:
      degree, field, institution, start date and end date. */
  const EducationParts: seq<string> := [
    EducationOpen + "\n      " + "<h3>",
    " in ",
    "</h3>" + "\n      " + "<p class=\"institution\">",
    "</p>" + "\n      " + "<p class=\"date\">",
    " - ",
    "</p>" + "\n    </div>\n  "]

  /** The block of one education entry; both dates are formatted. */
  function EducationItem(e: Education, otherDate: string -> string): (r: string)
    ensures EducationOpen <= r
  {
    Fill(EducationParts,
         [e.degree, e.field, e.institution, FormatDate(e.startDate, otherDate), FormatDate(e.endDate, otherDate)])
  }

  /** Every field of an education entry appears in its place in the block. */
  lemma EducationItemShows(e: Education, otherDate: string -> string)
    ensures var r := EducationItem(e, otherDate);
            && Contains(r, "<h3>" + (e.degree + " in " + e.field) + "</h3>")
            && Contains(r, "<p class=\"institution\">" + e.institution + "</p>")
            && Contains(r, "<p class=\"date\">" + (FormatDate(e.startDate, otherDate) + " - " + FormatDate(e.endDate, otherDate)) + "</p>")
  {
    var ps := EducationParts;
    var hs := [e.degree, e.field, e.institution, FormatDate(e.startDate, otherDate), FormatDate(e.endDate, otherDate)];
    var r := Fill(ps, hs);
    TwoHolesInContext(ps, hs, 0);
    ContainsInner(r, ps[0], hs[0] + ps[1] + hs[1], ps[2], "<h3>", "</h3>");
    HoleInContext(ps, hs, 2);
    ContainsInner(r, ps[2], hs[2], ps[3], "<p class=\"institution\">", "</p>");
    TwoHolesInContext(ps, hs, 3);
    ContainsInner(r, ps[3], hs[3] + ps[4] + hs[4], ps[5], "<p class=\"date\">", "</p>");
  }

  const ProjectOpen: string := "<div class=\"project-item\">\n      "
  const ProjectContentOpen: string := "\n      <div class=\"project-content\">"
  const TechnologiesOpen: string := "<div class=\"technologies\">\n          "

  /** The literal parts of a project block around its five substitutions:
      image, title, description, technology tags and link. */
  const ProjectParts: seq<string> := [
    "\n    " + ProjectOpen,
    ProjectContentOpen + "\n        " + "<h3>",
    "</h3>" + "\n        " + "<p class=\"description\">",
    "</p>" + "\n        " + TechnologiesOpen,
    "\n        </div>" + "\n        ",
    "\n      </div>" + "\n    </div>\n  "]

  /** The block of one project. */
  function ProjectItem(p: Project): (r: string)
    ensures "\n    " + ProjectOpen <= r
  {
    Fill(ProjectParts, [ImageFragment(p), p.title, p.description, TechTags(p.technologies), LinkFragment(p)])
  }

  /** The image slot opens the block, then come the title, the description,
      the technology tags and the link slot, each in its place. */
  lemma ProjectItemShows(p: Project)
    ensures var r := ProjectItem(p);
            && Contains(r, ProjectOpen + ImageFragment(p) + ProjectContentOpen)
            && Contains(r, "<h3>" + p.title + "</h3>")
            && Contains(r, "<p class=\"description\">" + p.description + "</p>")
            && Contains(r, TechnologiesOpen + TechTags(p.technologies) + "\n        </div>")
            && Contains(r, "\n        " + LinkFragment(p) + "\n      </div>")
  {
    var ps := ProjectParts;
    var hs := [ImageFragment(p), p.title, p.description, TechTags(p.technologies), LinkFragment(p)];
    var r := Fill(ps, hs);
    HoleInContext(ps, hs, 0);
    ContainsInner(r, ps[0], hs[0], ps[1], ProjectOpen, ProjectContentOpen);
    HoleInContext(ps, hs, 1);
    ContainsInner(r, ps[1], hs[1], ps[2], "<h3>", "</h3>");
    HoleInContext(ps, hs, 2);
    ContainsInner(r, ps[2], hs[2], ps[3], "<p class=\"description\">", "</p>");
    HoleInContext(ps, hs, 3);
    ContainsInner(r, ps[3], hs[3], ps[4], TechnologiesOpen, "\n        </div>");
    HoleInContext(ps, hs, 4);
    ContainsInner(r, ps[4], hs[4], ps[5], "\n        ", "\n      </div>");
  }

  // -------------------------------------------------------------------- lists

  const BlockSeparator: string := "\n"
  const NoExperience: string := "<p>No experience added yet.</p>"
  const NoEducation: string := "<p>No education added yet.</p>"
  const NoProjects: string := "<p>No projects added yet.</p>"

  function ExperienceItems(es: seq<Experience>, otherDate: string -> string): (items: seq<string>)
    ensures |items| == |es|
    ensures forall k :: 0 <= k < |es| ==> items[k] == ExperienceItem(es[k], otherDate)
  {
    seq(|es|, k requires 0 <= k < |es| => ExperienceItem(es[k], otherDate))
  }

  function EducationItems(es: seq<Education>, otherDate: string -> string): (items: seq<string>)
    ensures |items| == |es|
    ensures forall k :: 0 <= k < |es| ==> items[k] == EducationItem(es[k], otherDate)
  {
    seq(|es|, k requires 0 <= k < |es| => EducationItem(es[k], otherDate))
  }

  function ProjectItems(ps: seq<Project>): (items: seq<string>)
    ensures |items| == |ps|
    ensures forall k :: 0 <= k < |ps| ==> items[k] == ProjectItem(ps[k])
  {
    seq(|ps|, k requires 0 <= k < |ps| => ProjectItem(ps[k]))
  }

  /** What the experience container holds: the blocks joined by line breaks,
      or the empty-list sentence when there are none. */
  function ExperienceSection(es: seq<Experience>, otherDate: string -> string): string
  {
    Or(Join(ExperienceItems(es, otherDate), BlockSeparator), NoExperience)
  }

  /** What the education container holds. */
  function EducationSection(es: seq<Education>, otherDate: string -> string): string
  {
    Or(Join(EducationItems(es, otherDate), BlockSeparator), NoEducation)
  }

  /** What the projects container holds. */
  function ProjectsSection(ps: seq<Project>): string
  {
    Or(Join(ProjectItems(ps), BlockSeparator), NoProjects)
  }

  /** A non-empty list of blocks joins to a text that starts with a line
      break, so it is never empty and never an empty-list sentence. */
  lemma JoinedBlocksStartWithBreak(items: seq<string>, open: string)
    requires items != [] && open != [] && open[0] == '\n'
    requires forall k :: 0 <= k < |items| ==> open <= items[k]
    ensures var r := Join(items, BlockSeparator); r != [] && r[0] == '\n'
  {
    assert open <= items[0];
  }

  /** The experience container shows the empty-list sentence exactly when
      there are no experiences; otherwise it holds their blocks. */
  lemma ExperienceSectionIff(es: seq<Experience>, otherDate: string -> string)
    ensures ExperienceSection(es, otherDate) == NoExperience <==> es == []
    ensures es != [] ==> ExperienceSection(es, otherDate) == Join(ExperienceItems(es, otherDate), BlockSeparator)
  {
    if es != [] {
      JoinedBlocksStartWithBreak(ExperienceItems(es, otherDate), ExperienceOpen);
      assert NoExperience[0] == '<';
    }
  }

  /** The education container shows the empty-list sentence exactly when
      there are no entries; otherwise it holds their blocks. */
  lemma EducationSectionIff(es: seq<Education>, otherDate: string -> string)
    ensures EducationSection(es, otherDate) == NoEducation <==> es == []
    ensures es != [] ==> EducationSection(es, otherDate) == Join(EducationItems(es, otherDate), BlockSeparator)
  {
    if es != [] {
      JoinedBlocksStartWithBreak(EducationItems(es, otherDate), EducationOpen);
      assert NoEducation[0] == '<';
    }
  }

  /** The projects container shows the empty-list sentence exactly when
      there are no projects; otherwise it holds their blocks. */
  lemma ProjectsSectionIff(ps: seq<Project>)
    ensures ProjectsSection(ps) == NoProjects <==> ps == []
    ensures ps != [] ==> ProjectsSection(ps) == Join(ProjectItems(ps), BlockSeparator)
  {
    if ps != [] {
      JoinedBlocksStartWithBreak(ProjectItems(ps), "\n    " + ProjectOpen);
      assert NoProjects[0] == '<';
    }
  }

  /** One block per experience, each at its own position, in input order. */
  lemma ExperienceBlocksInOrder(es: seq<Experience>, otherDate: string -> string)
    ensures var items := ExperienceItems(es, otherDate);
            && (forall k :: 0 <= k < |es| ==>
                  OccursAt(ExperienceSection(es, otherDate), ExperienceItem(es[k], otherDate), JoinPos(items, BlockSeparator, k)))
            && (forall i, j :: 0 <= i < j < |es| ==>
                  JoinPos(items, BlockSeparator, i) + |items[i]| < JoinPos(items, BlockSeparator, j))
  {
    ExperienceSectionIff(es, otherDate);
    JoinBlocks(ExperienceItems(es, otherDate), BlockSeparator);
  }

  /** One block per education entry, each at its own position, in input order. */
  lemma EducationBlocksInOrder(es: seq<Education>, otherDate: string -> string)
    ensures var items := EducationItems(es, otherDate);
            && (forall k :: 0 <= k < |es| ==>
                  OccursAt(EducationSection(es, otherDate), EducationItem(es[k], otherDate), JoinPos(items, BlockSeparator, k)))
            && (forall i, j :: 0 <= i < j < |es| ==>
                  JoinPos(items, BlockSeparator, i) + |items[i]| < JoinPos(items, BlockSeparator, j))
  {
    EducationSectionIff(es, otherDate);
    JoinBlocks(EducationItems(es, otherDate), BlockSeparator);
  }

  /** One block per project, each at its own position, in input order. */
  lemma ProjectBlocksInOrder(ps: seq<Project>)
    ensures var items := ProjectItems(ps);
            && (forall k :: 0 <= k < |ps| ==>
                  OccursAt(ProjectsSection(ps), ProjectItem(ps[k]), JoinPos(items, BlockSeparator, k)))
            && (forall i, j :: 0 <= i < j < |ps| ==>
                  JoinPos(items, BlockSeparator, i) + |items[i]| < JoinPos(items, BlockSeparator, j))
  {
    ProjectsSectionIff(ps);
    JoinBlocks(ProjectItems(ps), BlockSeparator);
  }

  /** The end date of an experience is printed as entered: `2016-05`
      stays `2016-05` (compare EducationEndDateFormatted). */
  lemma ExperienceEndDateRaw(otherDate: string -> string)
    ensures Contains(ExperienceItem(Experience("", "", "", "2016-05", ""), otherDate),
                     "<p class=\"date\">" + " - 2016-05" + "</p>")
  {
    var e := Experience("", "", "", "2016-05", "");
    ExperienceItemShows(e, otherDate);
    var start, end := FormatDate(e.startDate, otherDate), Or(e.endDate, "Present");
    assert start == "" && end == "2016-05";
    assert start + " - " + end == " - 2016-05";
  }

  /** The end date of an education entry is formatted: `2016-05` shows as
      `May 2016`. */
  lemma EducationEndDateFormatted(otherDate: string -> string)
    ensures Contains(EducationItem(Education("", "", "", "", "2016-05"), otherDate),
                     "<p class=\"date\">" + " - May 2016" + "</p>")
  {
    var e := Education("", "", "", "", "2016-05");
    EducationItemShows(e, otherDate);
    FormatDateExampleEnd(otherDate);
    var start, end := FormatDate(e.startDate, otherDate), FormatDate(e.endDate, otherDate);
    assert start == "" && end == "May 2016";
    assert start + " - " + end == " - May 2016";
  }
}
