/** The style renderer: a fixed stylesheet with four substitutions, the
    primary colour, the secondary colour, the corner radius and the font
    family of the resolved theme. The literal text between them is kept
    verbatim and is not interpreted. */
module Stylesheet {
  import opened JsString
  import opened TemplateLiteral
  import opened Themes
  import opened PortfolioData

  /** The literal parts of the stylesheet around its four substitutions,
      given the three stretches of fixed rules between and after them. */
  function CssTemplate(variables: string, baseRules: string, rules: string): (parts: seq<string>)
    ensures |parts| == 5
  {
    [ ":root {\n  " + "--primary-color: ",
      ";" + "\n  " + "--secondary-color: ",
      ";" + variables + "--border-radius: ",
      ";" + baseRules + "font-family: ",
      ";" + rules ]
  }

  /** The fixed colour variables between the secondary colour and the radius. */
  const CssVariables: string := @"
  --accent-color: #F59E0B;
  --text-color: #1F2937;
  --light-text-color: #6B7280;
  --background-color: #F9FAFB;
  --white: #FFFFFF;
  --gray-100: #F3F4F6;
  --gray-200: #E5E7EB;
  --gray-300: #D1D5DB;
  --gray-800: #1F2937;
  "

  /** The rules between the variables block and the body font. */
  const CssBaseRules: string := @"
  --transition: all 0.3s ease;
}

* {
  margin: 0;
  padding: 0;
  box-sizing: border-box;
}

html {
  scroll-behavior: smooth;
}

body {
  "

  /** The remaining rules: layout, components, animations and breakpoints,
      written as one literal per rule. */
  const CssRules: string :=
    @"
  line-height: 1.6;
  color: var(--text-color);
  background-color: var(--background-color);
}

"
    + @".container {
  width: 100%;
  max-width: 1200px;
  margin: 0 auto;
  padding: 0 1.5rem;
}

"
    + @"a {
  color: var(--primary-color);
  text-decoration: none;
  transition: var(--transition);
}

"
    + @"a:hover {
  color: var(--secondary-color);
}

"
    + @"/* Header */
header {
  height: 100vh;
  display: flex;
  align-items: center;
  justify-content: center;
  text-align: center;
  background: linear-gradient(135deg, var(--primary-color), var(--secondary-color));
  color: var(--white);
  padding: 2rem;
  position: relative;
  overflow: hidden;
}

"
    + @".header-content {
  max-width: 800px;
  position: relative;
  z-index: 1;
}

"
    + @"header h1 {
  font-size: 3.5rem;
  margin-bottom: 1rem;
  font-weight: 700;
  opacity: 0;
  animation: fadeInUp 0.8s ease forwards;
}

"
    + @"header .title {
  font-size: 1.5rem;
  margin-bottom: 2rem;
  opacity: 0;
  animation: fadeInUp 0.8s ease 0.2s forwards;
}

"
    + @".social-links {
  display: flex;
  justify-content: center;
  gap: 1rem;
  margin-top: 2rem;
  opacity: 0;
  animation: fadeInUp 0.8s ease 0.4s forwards;
}

"
    + @".social-link {
  padding: 0.6rem 1.2rem;
  background-color: rgba(255, 255, 255, 0.1);
  color: var(--white);
  border-radius: 30px;
  transition: var(--transition);
  backdrop-filter: blur(5px);
}

"
    + @".social-link:hover {
  background-color: rgba(255, 255, 255, 0.2);
  color: var(--white);
  transform: translateY(-2px);
}

"
    + @"/* Navigation */
#navbar {
  position: sticky;
  top: 0;
  background-color: var(--white);
  box-shadow: 0 2px 10px rgba(0, 0, 0, 0.1);
  z-index: 100;
  padding: 1rem 0;
  backdrop-filter: blur(10px);
  background-color: rgba(255, 255, 255, 0.9);
}

"
    + @"#navbar .container {
  display: flex;
  justify-content: center;
  gap: 2rem;
}

"
    + @"#navbar a {
  color: var(--gray-800);
  font-weight: 500;
  transition: var(--transition);
  position: relative;
}

"
    + @"#navbar a::after {
  content: '';
  position: absolute;
  bottom: -4px;
  left: 0;
  width: 0;
  height: 2px;
  background-color: var(--primary-color);
  transition: var(--transition);
}

"
    + @"#navbar a:hover::after,
#navbar a.active::after {
  width: 100%;
}

"
    + @"/* Sections */
.section {
  padding: 5rem 0;
  opacity: 0;
  transform: translateY(20px);
  transition: opacity 0.6s ease, transform 0.6s ease;
}

"
    + @".section.visible {
  opacity: 1;
  transform: translateY(0);
}

"
    + @".section-title {
  font-size: 2rem;
  margin-bottom: 2.5rem;
  text-align: center;
  position: relative;
}

"
    + @".section-title::after {
  content: '';
  position: absolute;
  bottom: -10px;
  left: 50%;
  transform: translateX(-50%);
  width: 60px;
  height: 4px;
  background-color: var(--primary-color);
  border-radius: 2px;
}

"
    + @"/* About Section */
.about-content {
  display: grid;
  grid-template-columns: 1fr 1fr;
  gap: 3rem;
}

"
    + @".about-text p {
  font-size: 1.1rem;
  margin-bottom: 1.5rem;
  line-height: 1.8;
}

"
    + @".skills h3 {
  margin-bottom: 1rem;
  font-size: 1.3rem;
}

"
    + @".skills-container {
  display: flex;
  flex-wrap: wrap;
  gap: 0.8rem;
}

"
    + @".skill-tag {
  background-color: var(--primary-color);
  color: var(--white);
  padding: 0.5rem 1rem;
  border-radius: 30px;
  font-size: 0.9rem;
  transition: var(--transition);
}

"
    + @".skill-tag:hover {
  transform: translateY(-2px);
  box-shadow: 0 4px 6px rgba(0, 0, 0, 0.1);
}

"
    + @"/* Experience Section */
.experience-container,
.education-container {
  margin-bottom: 3rem;
}

"
    + @".experience-item,
.education-item {
  margin-bottom: 2rem;
  padding-bottom: 2rem;
  border-bottom: 1px solid var(--gray-200);
  transition: var(--transition);
}

"
    + @".experience-item:hover,
.education-item:hover {
  transform: translateX(10px);
}

"
    + @".experience-item:last-child,
.education-item:last-child {
  border-bottom: none;
}

"
    + @".experience-header {
  margin-bottom: 1rem;
}

"
    + @".experience-header h3,
.education-item h3 {
  font-size: 1.3rem;
  margin-bottom: 0.3rem;
  color: var(--primary-color);
}

"
    + @".company,
.institution {
  font-weight: 500;
  color: var(--secondary-color);
}

"
    + @".date {
  color: var(--light-text-color);
  font-size: 0.9rem;
  margin-top: 0.3rem;
}

"
    + @"/* Projects Section */
.projects-container {
  display: grid;
  grid-template-columns: repeat(auto-fill, minmax(300px, 1fr));
  gap: 2rem;
}

"
    + @".project-item {
  background-color: var(--white);
  border-radius: var(--border-radius);
  overflow: hidden;
  box-shadow: 0 4px 6px rgba(0, 0, 0, 0.1);
  transition: var(--transition);
}

"
    + @".project-item:hover {
  transform: translateY(-5px);
  box-shadow: 0 10px 20px rgba(0, 0, 0, 0.1);
}

"
    + @".project-image {
  width: 100%;
  height: 200px;
  object-fit: cover;
  transition: var(--transition);
}

"
    + @".project-item:hover .project-image {
  transform: scale(1.05);
}

"
    + @".project-content {
  padding: 1.5rem;
}

"
    + @".project-content h3 {
  font-size: 1.3rem;
  margin-bottom: 0.8rem;
  color: var(--primary-color);
}

"
    + @".technologies {
  display: flex;
  flex-wrap: wrap;
  gap: 0.5rem;
  margin: 1rem 0;
}

"
    + @".tech-tag {
  background-color: var(--gray-100);
  color: var(--gray-800);
  padding: 0.3rem 0.6rem;
  border-radius: 4px;
  font-size: 0.8rem;
  transition: var(--transition);
}

"
    + @".tech-tag:hover {
  background-color: var(--primary-color);
  color: var(--white);
}

"
    + @".project-link {
  display: inline-block;
  margin-top: 1rem;
  padding: 0.5rem 1rem;
  background-color: var(--primary-color);
  color: var(--white);
  border-radius: 4px;
  font-weight: 500;
  transition: var(--transition);
}

"
    + @".project-link:hover {
  background-color: var(--secondary-color);
  color: var(--white);
  transform: translateY(-2px);
}

"
    + @"/* Contact Section */
.contact-content {
  max-width: 600px;
  margin: 0 auto;
  text-align: center;
}

"
    + @".contact-content p {
  margin-bottom: 2rem;
  font-size: 1.1rem;
}

"
    + @".contact-info {
  display: flex;
  flex-direction: column;
  gap: 1rem;
}

"
    + @".contact-item {
  display: flex;
  align-items: center;
  justify-content: center;
  gap: 0.5rem;
  padding: 1rem;
  background-color: var(--white);
  border-radius: var(--border-radius);
  transition: var(--transition);
}

"
    + @".contact-item:hover {
  transform: translateY(-2px);
  box-shadow: 0 4px 6px rgba(0, 0, 0, 0.1);
}

"
    + @".label {
  font-weight: 600;
  color: var(--primary-color);
}

"
    + @"/* Footer */
footer {
  background-color: var(--gray-800);
  color: var(--white);
  padding: 2rem 0;
  text-align: center;
}

"
    + @"/* Animations */
@keyframes fadeInUp {
  from {
    opacity: 0;
    transform: translateY(20px);
  }
  to {
    opacity: 1;
    transform: translateY(0);
  }
}

"
    + @"/* Media Queries */
@media screen and (max-width: 768px) {
  header h1 {
    font-size: 2.5rem;
  }
  
  header .title {
    font-size: 1.2rem;
  }
  
  .about-content {
    grid-template-columns: 1fr;
    gap: 2rem;
  }
  
  #navbar .container {
    overflow-x: auto;
    justify-content: flex-start;
    padding-bottom: 0.5rem;
  }
  
  .section {
    padding: 3rem 0;
  }
}

"
    + @"@media screen and (max-width: 480px) {
  header h1 {
    font-size: 2rem;
  }
  
  .projects-container {
    grid-template-columns: 1fr;
  }
  
  .social-links {
    flex-direction: column;
    align-items: center;
  }
  
  .social-link {
    width: 100%;
    max-width: 200px;
  }
}"

  const CssParts: seq<string> := CssTemplate(CssVariables, CssBaseRules, CssRules)

  /** The theme values in the order the stylesheet substitutes them. */
  function CssHoles(styles: Theme): seq<string>
  {
    [styles.primaryColor, styles.secondaryColor, styles.borderRadius, styles.fontFamily]
  }

  /** generateCSS: the template argument is accepted and not used. The
      ensures gives only the opening; ThemeValuesDeclared and
      ReadThemeGenerate state where the theme values land. */
  function GenerateCSS(template: TemplateData, styles: Theme): (css: string)
    ensures ":root {\n  --primary-color: " <= css
  {
    Fill(CssParts, CssHoles(styles))
  }

  /** The stylesheet depends on the resolved theme alone. */
  lemma StylesheetIgnoresTemplate(t1: TemplateData, t2: TemplateData, styles: Theme)
    ensures GenerateCSS(t1, styles) == GenerateCSS(t2, styles)
  {
  }

  /** Each theme value is the value of its declaration. */
  lemma ThemeValuesDeclared(template: TemplateData, styles: Theme)
    ensures var css := GenerateCSS(template, styles);
            && Contains(css, "--primary-color: " + styles.primaryColor + ";")
            && Contains(css, "--secondary-color: " + styles.secondaryColor + ";")
            && Contains(css, "--border-radius: " + styles.borderRadius + ";")
            && Contains(css, "font-family: " + styles.fontFamily + ";")
  {
    DeclarationsIn(CssVariables, CssBaseRules, CssRules, styles);
  }

  /** ThemeValuesDeclared for any fixed rule text. */
  lemma DeclarationsIn(variables: string, baseRules: string, rules: string, styles: Theme)
    ensures var css := Fill(CssTemplate(variables, baseRules, rules), CssHoles(styles));
            && Contains(css, "--primary-color: " + styles.primaryColor + ";")
            && Contains(css, "--secondary-color: " + styles.secondaryColor + ";")
            && Contains(css, "--border-radius: " + styles.borderRadius + ";")
            && Contains(css, "font-family: " + styles.fontFamily + ";")
  {
    var ps, hs := CssTemplate(variables, baseRules, rules), CssHoles(styles);
    var css := Fill(ps, hs);
    HoleInContext(ps, hs, 0);
    ContainsInner(css, ps[0], hs[0], ps[1], "--primary-color: ", ";");
    HoleInContext(ps, hs, 1);
    ContainsInner(css, ps[1], hs[1], ps[2], "--secondary-color: ", ";");
    HoleInContext(ps, hs, 2);
    ContainsInner(css, ps[2], hs[2], ps[3], "--border-radius: ", ";");
    HoleInContext(ps, hs, 3);
    ContainsInner(css, ps[3], hs[3], ps[4], "font-family: ", ";");
  }

  /** Reads the theme back out of a stylesheet: each value runs up to the ';'
      that ends its declaration. */
  function ReadTheme(css: string): (t: Option<Theme>)
    ensures t.Some? ==> Fill(CssParts, CssHoles(t.value)) == css
  {
    match Unfill(CssParts, css)
    case Some(hs) =>
      assert CssHoles(Theme(hs[0], hs[1], hs[3], hs[2])) == hs;
      Some(Theme(hs[0], hs[1], hs[3], hs[2]))
    case None => None
  }

  /** Round trip: a theme whose values contain no ';' is recovered from its
      stylesheet. */
  lemma ReadThemeGenerate(template: TemplateData, styles: Theme)
    requires SemicolonFree(styles)
    ensures ReadTheme(GenerateCSS(template, styles)) == Some(styles)
  {
    CssDelimited(CssVariables, CssBaseRules, CssRules, styles);
    UnfillFill(CssParts, CssHoles(styles));
  }

  lemma CssDelimited(variables: string, baseRules: string, rules: string, styles: Theme)
    requires SemicolonFree(styles)
    ensures Delimited(CssTemplate(variables, baseRules, rules), CssHoles(styles))
  {
    var ps := CssTemplate(variables, baseRules, rules);
    assert ps[1][0] == ';' && ps[2][0] == ';' && ps[3][0] == ';' && ps[4][0] == ';';
    assert DelimitedAt(ps, CssHoles(styles), 0) && DelimitedAt(ps, CssHoles(styles), 1);
    assert DelimitedAt(ps, CssHoles(styles), 2) && DelimitedAt(ps, CssHoles(styles), 3);
  }

  /** The stylesheet for a template id: the styles the id resolves to. */
  function StylesheetFor(template: TemplateData): string
  {
    GenerateCSS(template, GetTemplateStyles(template.id))
  }

  /** Two templates get the same stylesheet exactly when their ids resolve
      to the same table style; in particular an unknown id gets exactly the
      `minimal` stylesheet. */
  lemma StylesheetIffSameStyle(t1: TemplateData, t2: TemplateData)
    ensures StylesheetFor(t1) == StylesheetFor(t2) <==> ResolvedId(t1.id) == ResolvedId(t2.id)
  {
    var s1, s2 := GetTemplateStyles(t1.id), GetTemplateStyles(t2.id);
    TableStylesSemicolonFree(t1.id);
    TableStylesSemicolonFree(t2.id);
    if StylesheetFor(t1) == StylesheetFor(t2) {
      StylesheetInjective(t1, t2, s1, s2);
    }
    SameStyleIff(t1.id, t2.id);
  }

  /** Different ';'-free themes give different stylesheets. */
  lemma StylesheetInjective(t1: TemplateData, t2: TemplateData, s1: Theme, s2: Theme)
    requires SemicolonFree(s1) && SemicolonFree(s2)
    requires GenerateCSS(t1, s1) == GenerateCSS(t2, s2)
    ensures s1 == s2
  {
    ReadThemeGenerate(t1, s1);
    ReadThemeGenerate(t2, s2);
  }
}
