/** ClassicTemplate: a single-column layout. The header always shows the name;
    every other header item and every section appears only when it has content.
    Achievements and references are never shown. */
module ClassicTemplate {
  import opened ResumeTypes
  import opened Rendering

  const DefaultFont := "Georgia, serif"

  // The six sections the template can render, each built from its field.

  function SummaryPart(d: ResumeData): Section {
    Section(SummarySection, "Professional Summary", [Paragraph(d.summary)])
  }

  function ExperiencePart(d: ResumeData): Section {
    Section(ExperienceSection, "Professional Experience", Jobs(d.experience))
  }

  function EducationPart(d: ResumeData): Section {
    Section(EducationSection, "Education", Schools(d.education))
  }

  function SkillsPart(d: ResumeData): Section {
    Section(SkillsSection, "Core Skills", Paragraphs(d.skills))
  }

  function ProjectsPart(d: ResumeData): Section {
    Section(ProjectsSection, "Notable Projects", ProjectCards(d.projects))
  }

  function LanguagesPart(d: ResumeData): Section {
    Section(LanguagesSection, "Languages", LanguageLines(d.languages))
  }

  /** Which sections the Classic template shows for `d`: the summary when it is
      non-empty, each list section when its list is non-empty, and never
      achievements or references. */
  predicate Visible(d: ResumeData, k: SectionKind) {
    match k
    case SummarySection => d.summary != ""
    case ExperienceSection => |d.experience| > 0
    case EducationSection => |d.education| > 0
    case SkillsSection => |d.skills| > 0
    case ProjectsSection => |d.projects| > 0
    case LanguagesSection => |d.languages| > 0
    case AchievementsSection => false
    case ReferencesSection => false
  }

  /** The page body in document order, each section guarded by its JSX condition. */
  function Slots(d: ResumeData): seq<Slot> {
    [Slot(d.summary != "", SummaryPart(d)),
     Slot(|d.experience| > 0, ExperiencePart(d)),
     Slot(|d.education| > 0, EducationPart(d)),
     Slot(|d.skills| > 0, SkillsPart(d)),
     Slot(|d.projects| > 0, ProjectsPart(d)),
     Slot(|d.languages| > 0, LanguagesPart(d))]
  }

  /** The guards of `Slots` agree with `Visible`. */
  lemma SlotsVisible(d: ResumeData)
    ensures forall k :: SlotShows(Slots(d), k) <==> Visible(d, k)
  {
    var slots := Slots(d);
    forall k ensures SlotShows(slots, k) <==> Visible(d, k) {
      if Visible(d, k) {
        match k
        case SummarySection => assert slots[0].shown && slots[0].section.kind == k;
        case ExperienceSection => assert slots[1].shown && slots[1].section.kind == k;
        case EducationSection => assert slots[2].shown && slots[2].section.kind == k;
        case SkillsSection => assert slots[3].shown && slots[3].section.kind == k;
        case ProjectsSection => assert slots[4].shown && slots[4].section.kind == k;
        case LanguagesSection => assert slots[5].shown && slots[5].section.kind == k;
      }
    }
  }

  /** Where each kind of section stands in the template's document order. */
  function Rank(k: SectionKind): int {
    match k
    case SummarySection => 0
    case ExperienceSection => 1
    case EducationSection => 2
    case SkillsSection => 3
    case ProjectsSection => 4
    case LanguagesSection => 5
    case AchievementsSection => 6
    case ReferencesSection => 7
  }

  /** The section the template builds for kind `k`; it has none for
      achievements or references. */
  function PartOf(d: ResumeData, k: SectionKind): Option<Section> {
    match k
    case SummarySection => Some(SummaryPart(d))
    case ExperienceSection => Some(ExperiencePart(d))
    case EducationSection => Some(EducationPart(d))
    case SkillsSection => Some(SkillsPart(d))
    case ProjectsSection => Some(ProjectsPart(d))
    case LanguagesSection => Some(LanguagesPart(d))
    case AchievementsSection => None
    case ReferencesSection => None
  }

  /** The rendered sections come in `Rank` order. */
  lemma SlotsOrdered(d: ResumeData)
    ensures Ranked(Emit(Slots(d)), Rank)
  {
    var slots := Slots(d);
    forall i | 0 <= i < |slots| ensures Rank(slots[i].section.kind) == i {
      assert slots[i] == Slots(d)[i];
    }
    EmitRanked(slots, Rank);
  }

  /** Every rendered section is the `PartOf` its kind. */
  lemma SlotsParts(d: ResumeData)
    ensures forall s :: s in Emit(Slots(d)) ==> PartOf(d, s.kind) == Some(s)
  {
    EmitParts(Slots(d), k => PartOf(d, k));
  }

  /** The Classic page: the chosen font (Georgia by default), the conditional
      header, and exactly the `Visible` sections. */
  function Render(d: ResumeData, fontFamily: Option<string>): (p: Page)
    ensures p.font == if fontFamily.Some? then fontFamily.value else "Georgia, serif"
    ensures p.header == ConditionalHeader(d.personal)
    ensures forall k :: Shows(p, k) <==> Visible(d, k)
    ensures Ranked(p.sections, Rank)
    ensures forall s :: s in p.sections ==> PartOf(d, s.kind) == Some(s)
  {
    EmitHas(Slots(d));
    SlotsOrdered(d);
    SlotsParts(d);
    SlotsVisible(d);
    Page(ChooseFont(fontFamily, DefaultFont), ConditionalHeader(d.personal), Emit(Slots(d)))
  }

  /** `Render`'s contract leaves no freedom: a section list in `Rank` order
      that shows exactly the `Visible` kinds, each section the `PartOf` its
      kind, is the rendered one. */
  lemma RenderDetermined(d: ResumeData, fontFamily: Option<string>, sections: seq<Section>)
    requires Ranked(sections, Rank)
    requires forall k :: Has(sections, k) <==> Visible(d, k)
    requires forall s :: s in sections ==> PartOf(d, s.kind) == Some(s)
    ensures sections == Render(d, fontFamily).sections
  {
    var p := Render(d, fontFamily);
    SectionsDetermined(sections, p.sections, Rank, k => PartOf(d, k));
  }

  /** What each section of a page built from this template's parts lists:
      one entry per element of its field. `Render` builds such a page. */
  lemma PartsEntries(d: ResumeData, sections: seq<Section>)
    requires forall s :: s in sections ==> PartOf(d, s.kind) == Some(s)
    ensures forall s :: s in sections && s.kind == SummarySection ==> s.entries == [Paragraph(d.summary)]
    ensures forall s :: s in sections && s.kind == ExperienceSection ==> s.entries == Jobs(d.experience)
    ensures forall s :: s in sections && s.kind == EducationSection ==> s.entries == Schools(d.education)
    ensures forall s :: s in sections && s.kind == SkillsSection ==> s.entries == Paragraphs(d.skills)
    ensures forall s :: s in sections && s.kind == ProjectsSection ==> s.entries == ProjectCards(d.projects)
    ensures forall s :: s in sections && s.kind == LanguagesSection ==> s.entries == LanguageLines(d.languages)
  {
  }
}
