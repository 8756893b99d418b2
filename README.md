# Portfolio builder: code generator and profile edits

This project models, in Dafny, the two pieces of logic in the portfolio
builder:

* **The code generator** (`src/utils/codeGenerator.ts`). It turns a profile
  (`UserData`) and a template into three strings `{html, css, js}`.
  * `getTemplateStyles` resolves the template id against a table of six
    themes and falls back to `minimal`.
  * `generateHTML` fills one page template with the profile's texts. Empty
    texts get placeholders, optional links and contact rows are left out,
    lists expand to one block per entry, and an empty list gets a
    `No … added yet.` sentence.
  * `generateCSS` fills four theme values into a fixed stylesheet.
  * `generateJS` returns a fixed script.
  * `formatDate` prints a `YYYY-MM` date as `Mon YYYY`.
* **The profile edits of the data-entry page** (`src/pages/DataEntry.tsx`).
  These are the handlers that add, remove and edit entries, parse the
  comma-separated skills and technologies, and merge the simulated resume
  data into the profile.

Modules:

* `PortfolioData`: the profile, template and generated-code values.
* `JsString`: the JavaScript built-ins used, on Dafny strings: `join`,
  `split` on one character, `trim` and `String(n)`.
* `TemplateLiteral`: a template literal `s0${e0}s1…sn` modelled once as
  `Fill(parts, holes)`. It proves where each substitution lands, that
  substitutions keep their order, and that delimited substitutions read back
  (`Unfill`). Joins of wrapped elements (`xs.map(x => \`<a>${x}</b>\`).join(sep)`)
  are shown to be such fills.
* `Themes`, `Dates`, `Fragments`, `Markup`, `Stylesheet`, `Script`,
  `CodeGenerator`: the generator, one module per concern.
* `ProfileEdits`: each handler as a function from the old profile to the new
  one, with lemmas saying what changes and that nothing else does.
* `DataEntry`: the page as a class holding the shared profile. Its methods
  copy a list, splice or assign into the copy, and then replace the profile,
  as the handlers do. Each is proved to produce the profile the matching
  `ProfileEdits` function describes.

Inputs the source reads from its environment are parameters of the model:

* `year` is the current year that the footer reads from the clock
  (`new Date().getFullYear()`).
* `otherDate` is what the platform's `Date`/`toLocaleDateString` makes of a
  non-empty date that is not of the form `YYYY-MM`.

Where the code and the design description disagree, the model follows the
code:

* `formatDate` does not return unparseable text unchanged. `new Date(NaN)`
  never throws, so `"Present"` prints as `Invalid Date` and the `catch`
  branch is never reached. The model hands every such input to `otherDate`.
* The experience end date is printed as entered: `exp.endDate || 'Present'`,
  without `formatDate`. Only the education dates and the experience start
  date are formatted (`ExperienceEndDateRaw`, `EducationEndDateFormatted`).
* The `website` and `twitter` fields never reach the page.
* No profile text is escaped.

## Model

| member | source | states |
|---|---|---|
| `Themes.GetTemplateStyles` | src/utils/codeGenerator.ts:24-65 | the lookup is total and always yields one of the six table styles |
| `Themes.ResolvedId` | src/utils/codeGenerator.ts:64 | an id resolves to itself when the table has it, otherwise to `minimal` |
| `Themes.CatalogStyles` | src/utils/codeGenerator.ts:25-62 | each of the six ids yields its own table row (colours, font, radius) |
| `Themes.UnknownIdFallsBack` | src/utils/codeGenerator.ts:64 | any id outside the table yields exactly the `minimal` style |
| `Themes.StylesDistinct` | src/utils/codeGenerator.ts:25-62 | two table ids give the same style exactly when they are the same id |
| `Themes.SameStyleIff` | src/utils/codeGenerator.ts:64 | two ids give the same style exactly when they resolve to the same table id |
| `Themes.TableStylesSemicolonFree` | src/utils/codeGenerator.ts:25-62 | no table value contains `;`, so each one ends at its declaration's `;` |
| `Dates.MonthAbbrev` | src/utils/codeGenerator.ts:793 | the en-US short month name of a month is three letters long |
| `Dates.MonthAbbrevInjective` | src/utils/codeGenerator.ts:793 | different months have different short names |
| `Dates.FullYear` | src/utils/codeGenerator.ts:792 | the Date constructor reads years 0 to 99 as 1900 to 1999 and keeps later years |
| `Dates.FormatDate` | src/utils/codeGenerator.ts:787-797 | `""` gives `""`; a well-formed `YYYY-MM` gives the month name, a space and the full year; any other text gives what the platform makes of it |
| `Dates.FormattedShape` | src/utils/codeGenerator.ts:791-793 | a formatted date is the three-letter month, a space and the digits of the full year |
| `Dates.FormatDateInjective` | src/utils/codeGenerator.ts:791-793 | from year 100 on, two dates print the same exactly when they are the same date |
| `Dates.TwoDigitYearsAre1900s` | src/utils/codeGenerator.ts:792 | `0020-01` and `1920-01` both print as `Jan 1920` |
| `Dates.FormatDateExample` | src/utils/codeGenerator.ts:787-797 | `2021-07` prints as `Jul 2021` |
| `JsString.Split` | src/pages/DataEntry.tsx:107 | `split(c)` gives one piece more than there are separators, none of them holding the separator |
| `JsString.Trim` | src/pages/DataEntry.tsx:107 | `trim()` leaves a contiguous stretch of the input with no whitespace at either end, having dropped only whitespace |
| `JsString.JoinSplit` | src/pages/DataEntry.tsx:107 | joining the split pieces with the separator gives the text back |
| `JsString.SplitJoin` | src/pages/DataEntry.tsx:107 | splitting a join of separator-free elements gives the elements back |
| `JsString.NatToString` | src/utils/codeGenerator.ts:198 | the printed year is the decimal text of the number, without a leading zero |
| `TemplateLiteral.HoleAt` | src/utils/codeGenerator.ts:109-202 | each substitution of a template literal appears verbatim between the literal parts around it |
| `TemplateLiteral.HolesInOrder` | src/utils/codeGenerator.ts:109-202 | substitutions appear in template order, each ending before the next begins |
| `TemplateLiteral.UnfillFill` | src/utils/codeGenerator.ts:206-655 | substitutions that do not contain the first character of the next part are read back exactly |
| `TemplateLiteral.FillInjective` | src/utils/codeGenerator.ts:206-655 | such substitutions fill a template to the same text exactly when they are equal |
| `TemplateLiteral.JoinBlocks` | src/utils/codeGenerator.ts:83 | a join holds every element at its own position, in input order, separated by the separator |
| `TemplateLiteral.TagListReadBack` | src/utils/codeGenerator.ts:71 | a join of wrapped elements reads back to exactly the elements, one per element, in order |
| `Fragments.SkillsHtml` | src/utils/codeGenerator.ts:71 | the skill tags are empty exactly when there are no skills, and start with the first skill's span |
| `Fragments.SkillTagsReadBack` | src/utils/codeGenerator.ts:71 | the skill tags are exactly one span per skill, in input order |
| `Fragments.SkillTagsInOrder` | src/utils/codeGenerator.ts:71 | each skill's span sits at its own position, the spans in input order |
| `Fragments.TechTags` | src/utils/codeGenerator.ts:102 | the tech tags are empty exactly when the project has no technologies |
| `Fragments.TechTagsReadBack` | src/utils/codeGenerator.ts:102 | the tech tags are exactly one span per technology, in input order |
| `Fragments.TechTagsInOrder` | src/utils/codeGenerator.ts:102 | each technology's span sits at its own position, in input order |
| `Fragments.EmailLink` | src/utils/codeGenerator.ts:125 | the e-mail link is absent exactly when the e-mail is empty, and otherwise links to `mailto:` plus the address |
| `Fragments.LinkedInLink` | src/utils/codeGenerator.ts:126 | the LinkedIn link is absent exactly when the field is empty, and otherwise links to the field verbatim |
| `Fragments.GitHubLink` | src/utils/codeGenerator.ts:127 | the GitHub link is absent exactly when the field is empty, and otherwise links to the field verbatim |
| `Fragments.EmailRow` | src/utils/codeGenerator.ts:188 | the Email contact row is absent exactly when the e-mail is empty, and otherwise shows it as link text and target |
| `Fragments.PhoneRow` | src/utils/codeGenerator.ts:189 | the Phone row is absent exactly when the phone is empty, and otherwise shows it |
| `Fragments.LocationRow` | src/utils/codeGenerator.ts:190 | the Location row is absent exactly when the location is empty, and otherwise shows it |
| `Fragments.ImageFragment` | src/utils/codeGenerator.ts:97 | a project's image is absent exactly when `image` is empty, and otherwise uses it as `src` |
| `Fragments.LinkFragment` | src/utils/codeGenerator.ts:104 | a project's link is absent exactly when `link` is empty, and otherwise uses it as `href` |
| `Fragments.ExperienceItem` | src/utils/codeGenerator.ts:74-83 | an experience block opens with the experience-item div |
| `Fragments.ExperienceItemShows` | src/utils/codeGenerator.ts:77-81 | position, company and description appear verbatim; the date line is the formatted start, ` - `, and the raw end date or `Present` |
| `Fragments.EducationItemShows` | src/utils/codeGenerator.ts:88-90 | `degree in field`, the institution, and both dates formatted appear in place |
| `Fragments.ProjectItemShows` | src/utils/codeGenerator.ts:96-105 | the image slot, title, description, tech tags and link slot appear in place and in order |
| `Fragments.ExperienceSectionIff` | src/utils/codeGenerator.ts:163 | the experience container holds `No experience added yet.` exactly when there are no experiences, else their blocks |
| `Fragments.EducationSectionIff` | src/utils/codeGenerator.ts:168 | the education container holds `No education added yet.` exactly when there are no entries, else their blocks |
| `Fragments.ProjectsSectionIff` | src/utils/codeGenerator.ts:177 | the projects container holds `No projects added yet.` exactly when there are no projects, else their blocks |
| `Fragments.ExperienceBlocksInOrder` | src/utils/codeGenerator.ts:74-83 | one block per experience, each at its own position, in input order |
| `Fragments.EducationBlocksInOrder` | src/utils/codeGenerator.ts:86-92 | one block per education entry, each at its own position, in input order |
| `Fragments.ProjectBlocksInOrder` | src/utils/codeGenerator.ts:95-107 | one block per project, each at its own position, in input order |
| `Fragments.ExperienceEndDateRaw` | src/utils/codeGenerator.ts:79 | an experience end date `2016-05` is printed as `2016-05`, not formatted |
| `Fragments.EducationEndDateFormatted` | src/utils/codeGenerator.ts:90 | an education end date `2016-05` is printed as `May 2016` |
| `Markup.GenerateHTML` | src/utils/codeGenerator.ts:67-203 | the page starts with its doctype |
| `Markup.TitleAndHeadingShown` | src/utils/codeGenerator.ts:114-123 | `<title>` shows the name or `Portfolio` and the title or `Professional Portfolio`; the heading shows the name or `Your Name` and the title or `Your Title` |
| `Markup.SocialLinksShown` | src/utils/codeGenerator.ts:124-128 | the social-links block holds the e-mail, LinkedIn and GitHub links in that order |
| `Markup.AboutAndSkillsShown` | src/utils/codeGenerator.ts:147-153 | the about paragraph shows the text or its placeholder; the skills container holds the skill tags |
| `Markup.ListSectionsShown` | src/utils/codeGenerator.ts:162-178 | the three list containers hold their blocks or their empty-list sentences |
| `Markup.ContactRowsShown` | src/utils/codeGenerator.ts:187-191 | the contact block holds the Email, Phone and Location rows in that order |
| `Markup.FooterShown` | src/utils/codeGenerator.ts:198 | the footer shows the given year and the name or `Your Name` |
| `Markup.EveryEntryShown` | src/utils/codeGenerator.ts:74-107 | every experience, education and project entry appears as its block in the page |
| `Markup.MarkupIgnoresTemplateAndUnrenderedFields` | src/utils/codeGenerator.ts:67-68 | the page depends on neither the template nor the website and twitter fields |
| `Stylesheet.GenerateCSS` | src/utils/codeGenerator.ts:205-656 | the stylesheet begins with the `:root` variables block |
| `Stylesheet.StylesheetIgnoresTemplate` | src/utils/codeGenerator.ts:205 | the stylesheet depends only on the theme, not on the template argument |
| `Stylesheet.ThemeValuesDeclared` | src/utils/codeGenerator.ts:207-233 | the primary colour, secondary colour, radius and font family each appear as the value of their declaration |
| `Stylesheet.ReadThemeGenerate` | src/utils/codeGenerator.ts:206-655 | a theme whose values contain no `;` is read back from its stylesheet |
| `Stylesheet.StylesheetIffSameStyle` | src/utils/codeGenerator.ts:6-12 | two templates get the same stylesheet exactly when their ids resolve to the same table id |
| `Stylesheet.StylesheetInjective` | src/utils/codeGenerator.ts:205-656 | different `;`-free themes give different stylesheets |
| `Script.GenerateJS` | src/utils/codeGenerator.ts:658-784 | the script is one fixed text that takes no input |
| `CodeGenerator.GeneratePortfolioCode` | src/utils/codeGenerator.ts:4-22 | the result is the page, the stylesheet and the script, each starting with its fixed opening |
| `CodeGenerator.StylesheetCarriesTheme` | src/utils/codeGenerator.ts:6-12 | the generated stylesheet reads back to exactly the theme the template id resolves to |
| `CodeGenerator.SameStylesheetIff` | src/utils/codeGenerator.ts:6-12 | two calls give the same stylesheet exactly when the ids resolve alike, whatever the profiles |
| `CodeGenerator.UnknownTemplateIsMinimal` | src/utils/codeGenerator.ts:4-22 | an unknown id gives exactly the code of the `minimal` template |
| `CodeGenerator.ScriptIsConstant` | src/utils/codeGenerator.ts:15 | the script is the same for every profile, template, year and date rendering |
| `CodeGenerator.CodeIgnoresUnrenderedFields` | src/utils/codeGenerator.ts:68 | the website and twitter fields change none of the three files |
| `CodeGenerator.DeveloperStylesheet` | src/utils/codeGenerator.ts:44-49 | the developer stylesheet declares `#10B981` and the JetBrains Mono font |
| `CodeGenerator.AdaLovelaceExample` | src/utils/codeGenerator.ts:4-22 | a sample profile shows its name, title and two skill tags in order and the empty experience sentence; the developer colour is declared; the script is the minimal template's |
| `ProfileEdits.AddExperience` | src/pages/DataEntry.tsx:13-21 | one empty experience is appended, earlier entries and every other field unchanged |
| `ProfileEdits.AddEducation` | src/pages/DataEntry.tsx:34-42 | one empty education entry is appended, earlier entries and every other field unchanged |
| `ProfileEdits.AddProject` | src/pages/DataEntry.tsx:55-63 | one empty project with no technologies is appended, the rest unchanged |
| `ProfileEdits.SpliceStart` | src/pages/DataEntry.tsx:26 | splice's start: an index inside the list is kept, a negative one counts from the end, one past the end is the end |
| `ProfileEdits.RemoveAt` | src/pages/DataEntry.tsx:25-26 | `splice(index, 1)` on a copy removes the element at the start position if there is one, else nothing |
| `ProfileEdits.RemoveAtIndex` | src/pages/DataEntry.tsx:25-26 | for an index of the list: one shorter, earlier elements kept, later ones shifted down by one |
| `ProfileEdits.RemoveAtReinsert` | src/pages/DataEntry.tsx:25-26 | putting the removed element back where it was restores the list |
| `ProfileEdits.RemoveExperience` | src/pages/DataEntry.tsx:24-31 | only the experiences change, by the splice |
| `ProfileEdits.RemoveEducation` | src/pages/DataEntry.tsx:45-52 | only the education list changes, by the splice |
| `ProfileEdits.RemoveProject` | src/pages/DataEntry.tsx:66-73 | only the projects change, by the splice |
| `ProfileEdits.RemoveUndoesAdd` | src/pages/DataEntry.tsx:13-73 | removing the entry an add has just appended gives the profile back |
| `ProfileEdits.SetField` | src/pages/DataEntry.tsx:97-101 | the named top-level field takes the value; every other field and the lists keep theirs |
| `ProfileEdits.SetFieldLaws` | src/pages/DataEntry.tsx:97-101 | writing a field's own value changes nothing; a second write replaces the first |
| `ProfileEdits.SetExperienceField` | src/pages/DataEntry.tsx:87-90 | the named field of an experience takes the value, the other fields keep theirs |
| `ProfileEdits.SetEducationField` | src/pages/DataEntry.tsx:87-90 | the named field of an education entry takes the value, the other fields keep theirs |
| `ProfileEdits.SetProjectField` | src/pages/DataEntry.tsx:87-90 | the named field of a project takes the value; the other fields and technologies keep theirs |
| `ProfileEdits.SetEntryField` | src/pages/DataEntry.tsx:84-95 | only the entry at the index in the named section changes, by its field update; other entries, sections and fields are unchanged |
| `ProfileEdits.ExperienceChangeIsLocal` | src/pages/DataEntry.tsx:84-95 | a nested experience change sets that one field of that one entry and nothing else |
| `ProfileEdits.ParseCommaList` | src/pages/DataEntry.tsx:107 | one trimmed piece per comma-separated piece, in order, commas plus one of them |
| `ProfileEdits.ParsedPiecesCommaFree` | src/pages/DataEntry.tsx:107 | no parsed piece contains a comma |
| `ProfileEdits.ParseEmpty` | src/pages/DataEntry.tsx:107 | an empty input parses to `[""]` |
| `ProfileEdits.ParseJoinedList` | src/pages/DataEntry.tsx:105-111 | a non-empty list of trimmed, comma-free items parses back from its `join(', ')` display |
| `ProfileEdits.HandleSkillsChange` | src/pages/DataEntry.tsx:106-112 | the skills become the parsed list; nothing else changes |
| `ProfileEdits.HandleTechnologiesChange` | src/pages/DataEntry.tsx:115-127 | only the technologies of the project at the index change, to the parsed list |
| `ProfileEdits.MergeResume` | src/pages/DataEntry.tsx:139-164 | name, title, about, email, skills, experiences and education take the fixed resume values; phone, location, website, linkedin, github, twitter and projects are kept |
| `ProfileEdits.MergeIdempotent` | src/pages/DataEntry.tsx:139-164 | merging twice is merging once |
| `ProfileEdits.MergeSameIff` | src/pages/DataEntry.tsx:139-164 | two profiles merge alike exactly when they agree on the kept fields |
| `DataEntry.Page.AddExperience` | src/pages/DataEntry.tsx:13-21 | the stored profile becomes `AddExperience` of the old one |
| `DataEntry.Page.AddEducation` | src/pages/DataEntry.tsx:34-42 | the stored profile becomes `AddEducation` of the old one |
| `DataEntry.Page.AddProject` | src/pages/DataEntry.tsx:55-63 | the stored profile becomes `AddProject` of the old one |
| `DataEntry.Page.RemoveExperience` | src/pages/DataEntry.tsx:24-31 | copying, splicing and storing gives `RemoveExperience` of the old profile |
| `DataEntry.Page.RemoveEducation` | src/pages/DataEntry.tsx:45-52 | copying, splicing and storing gives `RemoveEducation` of the old profile |
| `DataEntry.Page.RemoveProject` | src/pages/DataEntry.tsx:66-73 | copying, splicing and storing gives `RemoveProject` of the old profile |
| `DataEntry.Page.HandleInputChange` | src/pages/DataEntry.tsx:97-101 | the stored profile becomes `SetField` of the old one |
| `DataEntry.Page.HandleEntryChange` | src/pages/DataEntry.tsx:84-95 | copying the section, assigning at the index and storing gives `SetEntryField` of the old profile |
| `DataEntry.Page.HandleSkillsChange` | src/pages/DataEntry.tsx:106-112 | the stored profile becomes `HandleSkillsChange` of the old one |
| `DataEntry.Page.HandleTechnologiesChange` | src/pages/DataEntry.tsx:115-127 | copying the projects, assigning at the index and storing gives `HandleTechnologiesChange` of the old profile |
| `DataEntry.Page.HandleFileUpload` | src/pages/DataEntry.tsx:130-168 | with a chosen file the stored profile becomes the resume merge of the old one; without one it is unchanged |

## Left out

- The contents of the stylesheet and script literals are reproduced as text and not interpreted. The script's runtime behaviour is browser code and is not modelled: smooth scrolling, the IntersectionObserver, nav highlighting and random particles, including the loop inside the script text.
- The current year is the parameter `year`. Reading the clock is outside the model.
- Dates.FormatDate: specified only for `""` and well-formed `YYYY-MM` with month 01 to 12. Every other input goes to the parameter `otherDate`, which stands for `parseInt` leniency, month overflow and `Invalid Date`.
- `getTemplateStyles` looks the id up on a plain object. Inherited keys such as `constructor` would not fall back to `minimal`. The model uses a map with only the six ids, because ids come from the fixed catalog.
- ProfileEdits.SetField: the input's `name` is one of the ten text fields of the profile. A computed key that names a list field or an unknown key is not modelled, because only the text inputs of the form call this handler without a section.
- ProfileEdits.SetEntryField: requires an index inside the section. An out-of-range index would grow the array in JavaScript. The form only passes indices of existing entries.
- ProfileEdits.HandleTechnologiesChange: requires an index inside the projects for the same reason.
- ProfileEdits.RemoveAt: the splice start is an integer. JavaScript converts a fractional or NaN start with ToIntegerOrInfinity; that conversion is not modelled, because every remove button passes the integer index of a rendered entry.
- DataEntry.Page.HandleFileUpload: the `File` object, `setTimeout`, the upload flags and the stale `userData` the delayed callback captures are not modelled. Only the data merge is.
- React rendering, routing and navigation guards are not modelled. The template gallery, the preview iframe, clipboard copy and file downloads are not modelled either.
- HTML escaping is not modelled because the source does none.
