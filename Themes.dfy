/** The theme resolver: the fixed table of six template styles and the
    lookup that falls back to the `minimal` style for any other id. */
module Themes {

  /** The four values a template contributes to the stylesheet. */
  datatype Theme = Theme(
    primaryColor: string,
    secondaryColor: string,
    fontFamily: string,
    borderRadius: string)

  const Minimal: Theme := Theme("#3B82F6", "#1E40AF", "'Inter', sans-serif", "4px")
  const Creative: Theme := Theme("#EC4899", "#BE185D", "'Poppins', sans-serif", "12px")
  const Professional: Theme := Theme("#1F2937", "#111827", "'Source Sans Pro', sans-serif", "6px")
  const Developer: Theme := Theme("#10B981", "#059669", "'JetBrains Mono', monospace", "8px")
  const Modern: Theme := Theme("#8B5CF6", "#6D28D9", "'DM Sans', sans-serif", "16px")
  const Academic: Theme := Theme("#4B5563", "#374151", "'Merriweather', serif", "4px")

  /** The style table, keyed by template id. */
  const StyleTable: map<string, Theme> := map[
    "minimal" := Minimal,
    "creative" := Creative,
    "professional" := Professional,
    "developer" := Developer,
    "modern" := Modern,
    "academic" := Academic]

  /** The ids the table knows. */
  const TemplateIds: set<string> :=
    {"minimal", "creative", "professional", "developer", "modern", "academic"}

  /** getTemplateStyles: the table entry for the id, the `minimal` entry for
      any id the table does not have. It never fails and always yields one of
      the six styles. */
  function GetTemplateStyles(templateId: string): (t: Theme)
    ensures t in StyleTable.Values
  {
    if templateId in StyleTable then StyleTable[templateId] else StyleTable["minimal"]
  }

  /** The id whose style an id resolves to: itself when the table has it,
      `minimal` otherwise. */
  function ResolvedId(templateId: string): (id: string)
    ensures id in TemplateIds
    ensures templateId in TemplateIds ==> id == templateId
    ensures templateId !in TemplateIds ==> id == "minimal"
  {
    if templateId in TemplateIds then templateId else "minimal"
  }

  /** Each of the six ids yields its own table row. */
  lemma CatalogStyles()
    ensures GetTemplateStyles("minimal") == Theme("#3B82F6", "#1E40AF", "'Inter', sans-serif", "4px")
    ensures GetTemplateStyles("creative") == Theme("#EC4899", "#BE185D", "'Poppins', sans-serif", "12px")
    ensures GetTemplateStyles("professional") == Theme("#1F2937", "#111827", "'Source Sans Pro', sans-serif", "6px")
    ensures GetTemplateStyles("developer") == Theme("#10B981", "#059669", "'JetBrains Mono', monospace", "8px")
    ensures GetTemplateStyles("modern") == Theme("#8B5CF6", "#6D28D9", "'DM Sans', sans-serif", "16px")
    ensures GetTemplateStyles("academic") == Theme("#4B5563", "#374151", "'Merriweather', serif", "4px")
  {
  }

  /** Any id outside the table gets exactly the `minimal` style. */
  lemma UnknownIdFallsBack(templateId: string)
    requires templateId !in TemplateIds
    ensures GetTemplateStyles(templateId) == GetTemplateStyles("minimal")
  {
  }

  /** The six styles are pairwise different. */
  lemma StylesDistinct(a: string, b: string)
    requires a in TemplateIds && b in TemplateIds
    ensures GetTemplateStyles(a) == GetTemplateStyles(b) <==> a == b
  {
    assert Minimal.primaryColor != Creative.primaryColor;
  }

  /** Two ids get the same style exactly when they resolve to the same
      table id: the lookup identifies every unknown id with `minimal` and
      nothing else. */
  lemma SameStyleIff(a: string, b: string)
    ensures GetTemplateStyles(a) == GetTemplateStyles(b) <==> ResolvedId(a) == ResolvedId(b)
  {
    assert StyleTable.Keys == TemplateIds;
    assert GetTemplateStyles(a) == GetTemplateStyles(ResolvedId(a));
    assert GetTemplateStyles(b) == GetTemplateStyles(ResolvedId(b));
    StylesDistinct(ResolvedId(a), ResolvedId(b));
  }

  /** No value of a table style contains ';', the character that ends a
      declaration in the stylesheet. */
  predicate SemicolonFree(t: Theme)
  {
    ';' !in t.primaryColor && ';' !in t.secondaryColor && ';' !in t.fontFamily && ';' !in t.borderRadius
  }

  lemma TableStylesSemicolonFree(templateId: string)
    ensures SemicolonFree(GetTemplateStyles(templateId))
  {
    assert SemicolonFree(Minimal) by { MinimalSemicolonFree(); }
    assert SemicolonFree(Creative) by { CreativeSemicolonFree(); }
    assert SemicolonFree(Professional) by { ProfessionalSemicolonFree(); }
    assert SemicolonFree(Developer) by { DeveloperSemicolonFree(); }
    assert SemicolonFree(Modern) by { ModernSemicolonFree(); }
    assert SemicolonFree(Academic) by { AcademicSemicolonFree(); }
  }

  lemma MinimalSemicolonFree() ensures SemicolonFree(Minimal) {}
  lemma CreativeSemicolonFree() ensures SemicolonFree(Creative) {}
  lemma ProfessionalSemicolonFree() ensures SemicolonFree(Professional) {}
  lemma DeveloperSemicolonFree() ensures SemicolonFree(Developer) {}
  lemma ModernSemicolonFree() ensures SemicolonFree(Modern) {}
  lemma AcademicSemicolonFree() ensures SemicolonFree(Academic) {}
}
