/** The data-entry page as state: the profile it shares with the rest of the
    application, and its handlers. Each handler copies the part of the
    profile it edits, changes the copy (splice, element assignment) and
    then replaces the whole profile through the state setter; the new
    profile is the one the matching function of ProfileEdits describes.
    The add, remove, entry, skills, technologies and upload handlers
    spell out those copy-and-change steps rather than call the function,
    so that their ensures clauses check the handler's own steps against
    the function's description. HandleInputChange calls SetField, because
    the computed-key update `[name]: value` is that function itself. */
module DataEntry {
  import opened PortfolioData
  import ProfileEdits

  class Page {
    /** The profile held by the portfolio context. */
    var userData: Profile

    constructor (initial: Profile)
      ensures userData == initial
    {
      userData := initial;
    }

    /** addExperience. */
    method AddExperience()
      modifies this
      ensures userData == ProfileEdits.AddExperience(old(userData))
    {
      userData := userData.(experiences := userData.experiences + [ProfileEdits.EmptyExperience]);
    }

    /** addEducation. */
    method AddEducation()
      modifies this
      ensures userData == ProfileEdits.AddEducation(old(userData))
    {
      userData := userData.(education := userData.education + [ProfileEdits.EmptyEducation]);
    }

    /** addProject. */
    method AddProject()
      modifies this
      ensures userData == ProfileEdits.AddProject(old(userData))
    {
      userData := userData.(projects := userData.projects + [ProfileEdits.EmptyProject]);
    }

    /** removeExperience: copy the list, splice one element out at `index`,
        store the copy. */
    method RemoveExperience(index: int)
      modifies this
      ensures userData == ProfileEdits.RemoveExperience(old(userData), index)
    {
      var updated := userData.experiences;
      var k := ProfileEdits.SpliceStart(|updated|, index);
      if k < |updated| {
        updated := updated[..k] + updated[k + 1..];
      }
      userData := userData.(experiences := updated);
    }

    /** removeEducation. */
    method RemoveEducation(index: int)
      modifies this
      ensures userData == ProfileEdits.RemoveEducation(old(userData), index)
    {
      var updated := userData.education;
      var k := ProfileEdits.SpliceStart(|updated|, index);
      if k < |updated| {
        updated := updated[..k] + updated[k + 1..];
      }
      userData := userData.(education := updated);
    }

    /** removeProject. */
    method RemoveProject(index: int)
      modifies this
      ensures userData == ProfileEdits.RemoveProject(old(userData), index)
    {
      var updated := userData.projects;
      var k := ProfileEdits.SpliceStart(|updated|, index);
      if k < |updated| {
        updated := updated[..k] + updated[k + 1..];
      }
      userData := userData.(projects := updated);
    }

    /** handleInputChange without a section: the input's own name picks the
        top-level field. */
    method HandleInputChange(field: ProfileEdits.ProfileField, value: string)
      modifies this
      ensures userData == ProfileEdits.SetField(old(userData), field, value)
    {
      userData := ProfileEdits.SetField(userData, field, value);
    }

    /** handleInputChange with a section, an index and a field: copy the
        section, assign the changed entry at `index`, store the copy. */
    method HandleEntryChange(target: ProfileEdits.EntryField, index: nat, value: string)
      requires index < ProfileEdits.SectionLength(userData, target)
      modifies this
      ensures userData == ProfileEdits.SetEntryField(old(userData), target, index, value)
    {
      match target
      case InExperience(f) =>
        var updated := userData.experiences;
        updated := updated[index := ProfileEdits.SetExperienceField(updated[index], f, value)];
        userData := userData.(experiences := updated);
      case InEducation(f) =>
        var updated := userData.education;
        updated := updated[index := ProfileEdits.SetEducationField(updated[index], f, value)];
        userData := userData.(education := updated);
      case InProject(f) =>
        var updated := userData.projects;
        updated := updated[index := ProfileEdits.SetProjectField(updated[index], f, value)];
        userData := userData.(projects := updated);
    }

    /** handleSkillsChange. */
    method HandleSkillsChange(value: string)
      modifies this
      ensures userData == ProfileEdits.HandleSkillsChange(old(userData), value)
    {
      userData := userData.(skills := ProfileEdits.ParseCommaList(value));
    }

    /** handleTechnologiesChange: copy the projects, assign the project at
        `index` with its new technologies, store the copy. */
    method HandleTechnologiesChange(index: nat, value: string)
      requires index < |userData.projects|
      modifies this
      ensures userData == ProfileEdits.HandleTechnologiesChange(old(userData), index, value)
    {
      var updated := userData.projects;
      updated := updated[index := updated[index].(technologies := ProfileEdits.ParseCommaList(value))];
      userData := userData.(projects := updated);
    }

    /** The data step of handleFileUpload: when a file was chosen, the
        simulated parse result is merged into the profile. */
    method HandleFileUpload(fileChosen: bool)
      modifies this
      ensures userData == if fileChosen then ProfileEdits.MergeResume(old(userData)) else old(userData)
    {
      if fileChosen {
        var parsed := ProfileEdits.ResumePart;
        userData := userData.(name := parsed.name, title := parsed.title, about := parsed.about,
                              email := parsed.email, skills := parsed.skills,
                              experiences := parsed.experiences, education := parsed.education);
      }
    }
  }
}
