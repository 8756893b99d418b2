/** The edits the data-entry page makes to the profile. Each handler builds
    a new profile from the current one and hands it to the state setter, so
    each is modelled as a function from the old profile to the new one, with
    lemmas saying what changes and that nothing else does. */
module ProfileEdits {
  import opened JsString
  import opened PortfolioData

  // ------------------------------------------------------------ add / remove

  const EmptyExperience: Experience := Experience("", "", "", "", "")
  const EmptyEducation: Education := Education("", "", "", "", "")
  const EmptyProject: Project := Project("", "", [], "", "")

  /** addExperience: one empty experience at the end; nothing else changes. */
  function AddExperience(p: Profile): (q: Profile)
    ensures |q.experiences| == |p.experiences| + 1
    ensures q.experiences[..|p.experiences|] == p.experiences
    ensures q.experiences[|p.experiences|] == EmptyExperience
    ensures q.(experiences := p.experiences) == p
  {
    p.(experiences := p.experiences + [EmptyExperience])
  }

  /** addEducation: one empty education entry at the end; nothing else changes. */
  function AddEducation(p: Profile): (q: Profile)
    ensures |q.education| == |p.education| + 1
    ensures q.education[..|p.education|] == p.education
    ensures q.education[|p.education|] == EmptyEducation
    ensures q.(education := p.education) == p
  {
    p.(education := p.education + [EmptyEducation])
  }

  /** addProject: one empty project, with no technologies, at the end;
      nothing else changes. */
  function AddProject(p: Profile): (q: Profile)
    ensures |q.projects| == |p.projects| + 1
    ensures q.projects[..|p.projects|] == p.projects
    ensures q.projects[|p.projects|] == EmptyProject
    ensures q.(projects := p.projects) == p
  {
    p.(projects := p.projects + [EmptyProject])
  }

  /** The position Array.prototype.splice starts at for a start argument
      and an array length: a negative start counts from the end (and stops
      at 0), a start past the end is the end. */
  function SpliceStart(len: nat, start: int): (k: nat)
    ensures k <= len
    ensures 0 <= start <= len ==> k == start
    ensures start > len ==> k == len
    ensures start < 0 && len + start >= 0 ==> k == len + start
    ensures len + start < 0 ==> k == 0
  {
    if start < 0 then (if len + start < 0 then 0 else len + start)
    else if start > len then len
    else start
  }

  /** `copy.splice(start, 1)` on a copy of `xs`: removes the element at the
      splice position, if there is one there. */
  function RemoveAt<T>(xs: seq<T>, start: int): (ys: seq<T>)
    ensures var k := SpliceStart(|xs|, start);
            && (k < |xs| ==> |ys| + 1 == |xs| && ys[..k] == xs[..k] && ys[k..] == xs[k + 1..])
            && (k == |xs| ==> ys == xs)
  {
    var k := SpliceStart(|xs|, start);
    if k < |xs| then xs[..k] + xs[k + 1..] else xs
  }

  /** For an index of the list, the elements before it stay and the ones
      after it move down by one. */
  lemma RemoveAtIndex<T>(xs: seq<T>, i: int)
    requires 0 <= i < |xs|
    ensures |RemoveAt(xs, i)| == |xs| - 1
    ensures forall j :: 0 <= j < i ==> RemoveAt(xs, i)[j] == xs[j]
    ensures forall j :: i <= j < |xs| - 1 ==> RemoveAt(xs, i)[j] == xs[j + 1]
  {
    var ys := RemoveAt(xs, i);
    assert ys[..i] == xs[..i] && ys[i..] == xs[i + 1..];
    forall j | 0 <= j < i ensures ys[j] == xs[j] {
      assert ys[..i][j] == xs[..i][j];
    }
    forall j | i <= j < |xs| - 1 ensures ys[j] == xs[j + 1] {
      assert ys[i..][j - i] == xs[i + 1..][j - i];
    }
  }

  /** Putting the removed element back where it was restores the list. */
  lemma RemoveAtReinsert<T>(xs: seq<T>, i: int)
    requires 0 <= i < |xs|
    ensures RemoveAt(xs, i)[..i] + [xs[i]] + RemoveAt(xs, i)[i..] == xs
  {
    var ys := RemoveAt(xs, i);
    assert ys[..i] == xs[..i] && ys[i..] == xs[i + 1..];
    assert xs == xs[..i] + [xs[i]] + xs[i + 1..];
  }

  /** A negative index counts from the end: -1 removes the last element. */
  lemma RemoveAtMinusOne<T>(xs: seq<T>)
    requires xs != []
    ensures RemoveAt(xs, -1) == xs[..|xs| - 1]
  {
  }

  /** An index past the end removes nothing. */
  lemma RemoveAtPastEnd<T>(xs: seq<T>, i: int)
    requires i >= |xs|
    ensures RemoveAt(xs, i) == xs
  {
  }

  /** removeExperience(index); nothing but the experiences changes. */
  function RemoveExperience(p: Profile, index: int): (q: Profile)
    ensures q.experiences == RemoveAt(p.experiences, index)
    ensures q.(experiences := p.experiences) == p
  {
    p.(experiences := RemoveAt(p.experiences, index))
  }

  /** removeEducation(index); nothing but the education list changes. */
  function RemoveEducation(p: Profile, index: int): (q: Profile)
    ensures q.education == RemoveAt(p.education, index)
    ensures q.(education := p.education) == p
  {
    p.(education := RemoveAt(p.education, index))
  }

  /** removeProject(index); nothing but the projects change. */
  function RemoveProject(p: Profile, index: int): (q: Profile)
    ensures q.projects == RemoveAt(p.projects, index)
    ensures q.(projects := p.projects) == p
  {
    p.(projects := RemoveAt(p.projects, index))
  }

  /** Removing the entry an add has just appended gives the profile back. */
  lemma RemoveUndoesAdd(p: Profile)
    ensures RemoveExperience(AddExperience(p), |p.experiences|) == p
    ensures RemoveEducation(AddEducation(p), |p.education|) == p
    ensures RemoveProject(AddProject(p), |p.projects|) == p
  {
    assert (p.experiences + [EmptyExperience])[..|p.experiences|] == p.experiences;
    assert (p.education + [EmptyEducation])[..|p.education|] == p.education;
    assert (p.projects + [EmptyProject])[..|p.projects|] == p.projects;
  }

  // ------------------------------------------------------ handleInputChange

  /** The top-level text fields of the profile, by their input names. */
  datatype ProfileField = Name | Title | About | Email | Phone | Location | Website | LinkedIn | GitHub | Twitter

  function GetField(p: Profile, f: ProfileField): string
  {
    match f
    case Name => p.name
    case Title => p.title
    case About => p.about
    case Email => p.email
    case Phone => p.phone
    case Location => p.location
    case Website => p.website
    case LinkedIn => p.linkedin
    case GitHub => p.github
    case Twitter => p.twitter
  }

  /** The direct form of handleInputChange: `{...userData, [name]: value}`.
      The named field takes the value, every other field keeps its own, and
      the lists are untouched. */
  function SetField(p: Profile, f: ProfileField, value: string): (q: Profile)
    ensures GetField(q, f) == value
    ensures forall g :: g != f ==> GetField(q, g) == GetField(p, g)
    ensures q.skills == p.skills && q.experiences == p.experiences
            && q.education == p.education && q.projects == p.projects
  {
    match f
    case Name => p.(name := value)
    case Title => p.(title := value)
    case About => p.(about := value)
    case Email => p.(email := value)
    case Phone => p.(phone := value)
    case Location => p.(location := value)
    case Website => p.(website := value)
    case LinkedIn => p.(linkedin := value)
    case GitHub => p.(github := value)
    case Twitter => p.(twitter := value)
  }

  /** Writing back the value a field already has changes nothing, and a
      second write to the same field replaces the first. */
  lemma SetFieldLaws(p: Profile, f: ProfileField, v: string, w: string)
    ensures SetField(p, f, GetField(p, f)) == p
    ensures SetField(SetField(p, f, v), f, w) == SetField(p, f, w)
  {
  }

  datatype ExperienceField = Company | Position | StartDate | EndDate | Description
  datatype EducationField = Institution | Degree | FieldOfStudy | StartedOn | EndedOn
  datatype ProjectField = ProjectTitle | ProjectDescription | Link | Image

  function GetExperienceField(e: Experience, f: ExperienceField): string
  {
    match f
    case Company => e.company
    case Position => e.position
    case StartDate => e.startDate
    case EndDate => e.endDate
    case Description => e.description
  }

  /** `{...entry, [field]: value}` on an experience. */
  function SetExperienceField(e: Experience, f: ExperienceField, value: string): (r: Experience)
    ensures GetExperienceField(r, f) == value
    ensures forall g :: g != f ==> GetExperienceField(r, g) == GetExperienceField(e, g)
  {
    match f
    case Company => e.(company := value)
    case Position => e.(position := value)
    case StartDate => e.(startDate := value)
    case EndDate => e.(endDate := value)
    case Description => e.(description := value)
  }

  function GetEducationField(e: Education, f: EducationField): string
  {
    match f
    case Institution => e.institution
    case Degree => e.degree
    case FieldOfStudy => e.field
    case StartedOn => e.startDate
    case EndedOn => e.endDate
  }

  /** `{...entry, [field]: value}` on an education entry. */
  function SetEducationField(e: Education, f: EducationField, value: string): (r: Education)
    ensures GetEducationField(r, f) == value
    ensures forall g :: g != f ==> GetEducationField(r, g) == GetEducationField(e, g)
  {
    match f
    case Institution => e.(institution := value)
    case Degree => e.(degree := value)
    case FieldOfStudy => e.(field := value)
    case StartedOn => e.(startDate := value)
    case EndedOn => e.(endDate := value)
  }

  function GetProjectField(pr: Project, f: ProjectField): string
  {
    match f
    case ProjectTitle => pr.title
    case ProjectDescription => pr.description
    case Link => pr.link
    case Image => pr.image
  }

  /** `{...entry, [field]: value}` on a project; its technologies stay. */
  function SetProjectField(pr: Project, f: ProjectField, value: string): (r: Project)
    ensures GetProjectField(r, f) == value
    ensures forall g :: g != f ==> GetProjectField(r, g) == GetProjectField(pr, g)
    ensures r.technologies == pr.technologies
  {
    match f
    case ProjectTitle => pr.(title := value)
    case ProjectDescription => pr.(description := value)
    case Link => pr.(link := value)
    case Image => pr.(image := value)
  }

  /** The section and field a nested change names. */
  datatype EntryField =
    | InExperience(ef: ExperienceField)
    | InEducation(df: EducationField)
    | InProject(pf: ProjectField)

  /** Length of the list a nested change addresses. */
  function SectionLength(p: Profile, target: EntryField): nat
  {
    match target
    case InExperience(_) => |p.experiences|
    case InEducation(_) => |p.education|
    case InProject(_) => |p.projects|
  }

  /** The nested form of handleInputChange: on a copy of the section, the
      entry at `index` is replaced by itself with `field` set to `value`. */
  function SetEntryField(p: Profile, target: EntryField, index: nat, value: string): (q: Profile)
    requires index < SectionLength(p, target)
    ensures target.InExperience? ==>
              && q.(experiences := p.experiences) == p
              && |q.experiences| == |p.experiences|
              && q.experiences[index] == SetExperienceField(p.experiences[index], target.ef, value)
              && (forall j :: 0 <= j < |p.experiences| && j != index ==> q.experiences[j] == p.experiences[j])
    ensures target.InEducation? ==>
              && q.(education := p.education) == p
              && |q.education| == |p.education|
              && q.education[index] == SetEducationField(p.education[index], target.df, value)
              && (forall j :: 0 <= j < |p.education| && j != index ==> q.education[j] == p.education[j])
    ensures target.InProject? ==>
              && q.(projects := p.projects) == p
              && |q.projects| == |p.projects|
              && q.projects[index] == SetProjectField(p.projects[index], target.pf, value)
              && (forall j :: 0 <= j < |p.projects| && j != index ==> q.projects[j] == p.projects[j])
  {
    match target
    case InExperience(f) =>
      p.(experiences := p.experiences[index := SetExperienceField(p.experiences[index], f, value)])
    case InEducation(f) =>
      p.(education := p.education[index := SetEducationField(p.education[index], f, value)])
    case InProject(f) =>
      p.(projects := p.projects[index := SetProjectField(p.projects[index], f, value)])
  }

  /** A nested change to an experience sets that one field of that one
      entry: every other field of it, every other entry and every other
      part of the profile keep their values. */
  lemma ExperienceChangeIsLocal(p: Profile, index: nat, f: ExperienceField, value: string)
    requires index < |p.experiences|
    ensures var q := SetEntryField(p, InExperience(f), index, value);
            && GetExperienceField(q.experiences[index], f) == value
            && (forall g :: g != f ==>
                  GetExperienceField(q.experiences[index], g) == GetExperienceField(p.experiences[index], g))
            && q.(experiences := p.experiences) == p
  {
  }

  // ------------------------------------------------- comma-separated lists

  /** `value.split(',').map(s => s.trim())`. */
  function ParseCommaList(s: string): (r: seq<string>)
    ensures |r| == Count(s, ',') + 1 == |Split(s, ',')|
    ensures forall k :: 0 <= k < |r| ==> r[k] == Trim(Split(s, ',')[k])
    ensures forall k :: 0 <= k < |r| ==> Trimmed(r[k])
  {
    var pieces := Split(s, ',');
    seq(|pieces|, k requires 0 <= k < |pieces| => Trim(pieces[k]))
  }

  /** Every parsed piece is a stretch of one comma-free piece of the input,
      so it contains no comma itself. */
  lemma ParsedPiecesCommaFree(s: string)
    ensures forall k :: 0 <= k < |ParseCommaList(s)| ==> ',' !in ParseCommaList(s)[k]
  {
    var r, pieces := ParseCommaList(s), Split(s, ',');
    forall k | 0 <= k < |r| ensures ',' !in r[k] {
      var i, j :| 0 <= i <= j <= |pieces[k]| && r[k] == pieces[k][i..j];
      assert forall c :: c in r[k] ==> c in pieces[k];
    }
  }

  /** An empty input is one empty item, not an empty list. */
  lemma ParseEmpty()
    ensures ParseCommaList("") == [""]
  {
    assert Trim("") == "";
  }

  /** Each element with a space in front. */
  function Spaced(xs: seq<string>): (ys: seq<string>)
    ensures |ys| == |xs| && forall k :: 0 <= k < |xs| ==> ys[k] == " " + xs[k]
  {
    seq(|xs|, k requires 0 <= k < |xs| => " " + xs[k])
  }

  /** A space before a list joined with ", " is the list of spaced elements
      joined with ",". */
  lemma {:induction false} JoinSpaced(xs: seq<string>)
    requires xs != []
    ensures " " + Join(xs, ", ") == Join(Spaced(xs), ",")
    decreases |xs|
  {
    if |xs| > 1 {
      JoinSpaced(xs[1..]);
      assert Spaced(xs)[1..] == Spaced(xs[1..]);
      assert " " + (xs[0] + ", " + Join(xs[1..], ", ")) == (" " + xs[0]) + "," + (" " + Join(xs[1..], ", "));
    }
  }

  /** The ", " separator is a comma and then a space. */
  lemma CommaSpace(a: string, j: string)
    ensures a + ", " + j == a + "," + (" " + j)
  {
    assert ", " == "," + " ";
  }

  /** `xs.join(', ')` is `xs.join(',')` with a space in front of every
      element but the first. */
  lemma JoinedWithSpaces(xs: seq<string>)
    requires xs != []
    ensures Join(xs, ", ") == Join([xs[0]] + Spaced(xs[1..]), ",")
  {
    var ys := [xs[0]] + Spaced(xs[1..]);
    if |xs| > 1 {
      JoinSpaced(xs[1..]);
      assert ys[1..] == Spaced(xs[1..]);
      CommaSpace(xs[0], Join(xs[1..], ", "));
    }
  }

  /** The text `xs.join(', ')` splits at its commas into the first element
      and the others with their leading space. */
  lemma SplitJoinedList(xs: seq<string>)
    requires xs != []
    requires forall k :: 0 <= k < |xs| ==> ',' !in xs[k]
    ensures Split(Join(xs, ", "), ',') == [xs[0]] + Spaced(xs[1..])
  {
    var ys := [xs[0]] + Spaced(xs[1..]);
    JoinedWithSpaces(xs);
    forall k | 0 <= k < |ys| ensures ',' !in ys[k] {
      if k > 0 {
        assert ys[k] == " " + xs[k];
      }
    }
    SplitJoin(ys, ',');
  }

  /** Round trip with the editor's display of the list, `skills.join(', ')`:
      a non-empty list of trimmed, comma-free items parses back to itself. */
  lemma ParseJoinedList(xs: seq<string>)
    requires xs != []
    requires forall k :: 0 <= k < |xs| ==> ',' !in xs[k] && Trimmed(xs[k])
    ensures ParseCommaList(Join(xs, ", ")) == xs
  {
    SplitJoinedList(xs);
    ParseSpacedPieces(Join(xs, ", "), xs);
  }

  /** A text that splits into the first element and the others spaced
      parses back to the elements. */
  lemma ParseSpacedPieces(text: string, xs: seq<string>)
    requires xs != []
    requires forall k :: 0 <= k < |xs| ==> Trimmed(xs[k])
    requires Split(text, ',') == [xs[0]] + Spaced(xs[1..])
    ensures ParseCommaList(text) == xs
  {
    var r := ParseCommaList(text);
    assert |r| == |xs|;
    forall k | 0 <= k < |xs| ensures r[k] == xs[k] {
      TrimmedPiece(xs, k);
    }
  }

  /** Trimming a piece of the split of `xs.join(', ')` gives back the
      trimmed element. */
  lemma TrimmedPiece(xs: seq<string>, k: nat)
    requires k < |xs| && Trimmed(xs[k])
    ensures Trim(([xs[0]] + Spaced(xs[1..]))[k]) == xs[k]
  {
    if k == 0 {
      TrimTrimmed(xs[0]);
    } else {
      var spaced := Spaced(xs[1..]);
      assert ([xs[0]] + spaced)[k] == spaced[k - 1];
      assert spaced[k - 1] == " " + xs[1..][k - 1];
      assert xs[1..][k - 1] == xs[k];
      TrimLeadingSpace(xs[k]);
    }
  }

  /** handleSkillsChange: the skills become the parsed list; nothing else changes. */
  function HandleSkillsChange(p: Profile, value: string): (q: Profile)
    ensures q.skills == ParseCommaList(value)
    ensures q.(skills := p.skills) == p
  {
    p.(skills := ParseCommaList(value))
  }

  /** handleTechnologiesChange: the technologies of the project at `index`
      become the parsed list; its other fields, the other projects and the
      rest of the profile stay. */
  function HandleTechnologiesChange(p: Profile, index: nat, value: string): (q: Profile)
    requires index < |p.projects|
    ensures |q.projects| == |p.projects|
    ensures q.projects[index].technologies == ParseCommaList(value)
    ensures q.projects[index].(technologies := p.projects[index].technologies) == p.projects[index]
    ensures forall j :: 0 <= j < |p.projects| && j != index ==> q.projects[j] == p.projects[j]
    ensures q.(projects := p.projects) == p
  {
    p.(projects := p.projects[index := p.projects[index].(technologies := ParseCommaList(value))])
  }

  // ------------------------------------------------------------ resume merge

  /** The profile fields the simulated resume parse produces. */
  const ResumeExperience: Experience := Experience(
    "Tech Solutions Inc.", "Senior Developer", "2020-01", "Present",
    "Leading development of web applications using React and Node.js.")

  const ResumeEducation: Education := Education(
    "University of Technology", "Bachelor of Science", "Computer Science", "2012-09", "2016-05")

  const ResumeSkills: seq<string> := ["JavaScript", "React", "Node.js", "TypeScript", "CSS", "HTML"]

  /** The fields a merge overwrites. */
  datatype ParsedPart = ParsedPart(
    name: string, title: string, about: string, email: string,
    skills: seq<string>, experiences: seq<Experience>, education: seq<Education>)

  /** The fields a merge keeps. */
  datatype KeptPart = KeptPart(
    phone: string, location: string, website: string, linkedin: string,
    github: string, twitter: string, projects: seq<Project>)

  function Parsed(p: Profile): ParsedPart
  {
    ParsedPart(p.name, p.title, p.about, p.email, p.skills, p.experiences, p.education)
  }

  function Kept(p: Profile): KeptPart
  {
    KeptPart(p.phone, p.location, p.website, p.linkedin, p.github, p.twitter, p.projects)
  }

  /** A profile is its two parts. */
  lemma PartsDetermineProfile(p: Profile, q: Profile)
    ensures p == q <==> Parsed(p) == Parsed(q) && Kept(p) == Kept(q)
  {
  }

  const ResumePart: ParsedPart := ParsedPart(
    "John Doe", "Full Stack Developer",
    "Passionate developer with 5+ years of experience building web applications.",
    "john.doe@example.com", ResumeSkills, [ResumeExperience], [ResumeEducation])

  /** The data merge of handleFileUpload: the parsed fields take the
      resume's values, the other fields keep the profile's. */
  function MergeResume(p: Profile): (q: Profile)
    ensures Parsed(q) == ResumePart
    ensures Kept(q) == Kept(p)
  {
    p.(name := ResumePart.name, title := ResumePart.title, about := ResumePart.about,
       email := ResumePart.email, skills := ResumePart.skills,
       experiences := ResumePart.experiences, education := ResumePart.education)
  }

  /** Merging twice is merging once. */
  lemma MergeIdempotent(p: Profile)
    ensures MergeResume(MergeResume(p)) == MergeResume(p)
  {
    PartsDetermineProfile(MergeResume(MergeResume(p)), MergeResume(p));
  }

  /** Two profiles merge to the same profile exactly when they agree on the
      fields the merge keeps. */
  lemma MergeSameIff(p: Profile, q: Profile)
    ensures MergeResume(p) == MergeResume(q) <==> Kept(p) == Kept(q)
  {
    PartsDetermineProfile(MergeResume(p), MergeResume(q));
  }
}
