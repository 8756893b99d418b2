/** The values the portfolio builder passes around: the user's profile
    (UserData), the chosen template's catalog entry (TemplateData) and the
    generated code (the {html, css, js} triple). Every text field is a
    string in which "" means "not filled in". */
module PortfolioData {

  datatype Experience = Experience(
    company: string,
    position: string,
    startDate: string,
    endDate: string,
    description: string)

  datatype Education = Education(
    institution: string,
    degree: string,
    field: string,
    startDate: string,
    endDate: string)

  datatype Project = Project(
    title: string,
    description: string,
    technologies: seq<string>,
    link: string,
    image: string)

  datatype Profile = Profile(
    name: string,
    title: string,
    about: string,
    email: string,
    phone: string,
    location: string,
    website: string,
    linkedin: string,
    github: string,
    twitter: string,
    skills: seq<string>,
    experiences: seq<Experience>,
    education: seq<Education>,
    projects: seq<Project>)

  /** A catalog entry of the template gallery; only `id` reaches the generator. */
  datatype TemplateData = TemplateData(
    id: string,
    name: string,
    thumbnail: string,
    description: string)

  /** The three generated files. */
  datatype GeneratedCode = GeneratedCode(html: string, css: string, js: string)

  /** The profile the application starts from: every field empty. */
  const DefaultProfile: Profile :=
    Profile("", "", "", "", "", "", "", "", "", "", [], [], [], [])
}
