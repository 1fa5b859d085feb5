/** ModernTemplate: a three-column layout with a fixed font and no font
    parameter. The header shows every personal field, even empty ones; skills,
    education, summary and experience are always rendered; projects,
    achievements, languages and references only when their lists are non-empty. */
module ModernTemplate {
  import opened ResumeTypes
  import opened Rendering

  const Font := "Helvetica, Arial, sans-serif"

  /** A job as this template shows it: title, "company | start - end", and its
      plain responsibilities as a list, whatever `responsibilitiesHtml` holds. */
  function PlainJob(job: Experience): Entry {
    Job(job.title, job.company, job.startDate, job.endDate, Plain(job.responsibilities))
  }

  function PlainJobs(xs: seq<Experience>): seq<Entry> {
    if xs == [] then [] else [PlainJob(xs[0])] + PlainJobs(xs[1..])
  }

  /** A school as this template shows it: degree, school and year, without the field. */
  function ShortSchool(e: Education): Entry {
    School(e.degree, None, e.school, e.year)
  }

  function ShortSchools(xs: seq<Education>): seq<Entry> {
    if xs == [] then [] else [ShortSchool(xs[0])] + ShortSchools(xs[1..])
  }

  /** Every job is shown with its plain list; rich-text responsibilities are ignored. */
  lemma {:induction false} PlainJobsPointwise(xs: seq<Experience>)
    ensures |PlainJobs(xs)| == |xs|
    ensures forall i :: 0 <= i < |xs| ==>
      PlainJobs(xs)[i].Job? && PlainJobs(xs)[i].block == Plain(xs[i].responsibilities)
      && PlainJobs(xs)[i].title == xs[i].title && PlainJobs(xs)[i].company == xs[i].company
  {
    if xs != [] {
      PlainJobsPointwise(xs[1..]);
    }
  }

  /** Every school is shown without its field of study. */
  lemma {:induction false} ShortSchoolsPointwise(xs: seq<Education>)
    ensures |ShortSchools(xs)| == |xs|
    ensures forall i :: 0 <= i < |xs| ==>
      ShortSchools(xs)[i] == School(xs[i].degree, None, xs[i].school, xs[i].year)
  {
    if xs != [] {
      ShortSchoolsPointwise(xs[1..]);
    }
  }

  // The eight sections the template can render, each built from its field.

  function SkillsPart(d: ResumeData): Section {
    Section(SkillsSection, "Skills", Paragraphs(d.skills))
  }

  function EducationPart(d: ResumeData): Section {
    Section(EducationSection, "Education", ShortSchools(d.education))
  }

  function SummaryPart(d: ResumeData): Section {
    Section(SummarySection, "Summary", [Paragraph(d.summary)])
  }

  function ExperiencePart(d: ResumeData): Section {
    Section(ExperienceSection, "Experience", PlainJobs(d.experience))
  }

  function ProjectsPart(d: ResumeData): Section {
    Section(ProjectsSection, "Projects", ProjectCards(d.projects))
  }

  function AchievementsPart(d: ResumeData): Section {
    Section(AchievementsSection, "Achievements", Paragraphs(d.achievements))
  }

  function LanguagesPart(d: ResumeData): Section {
    Section(LanguagesSection, "Languages", LanguageLines(d.languages))
  }

  function ReferencesPart(d: ResumeData): Section {
    Section(ReferencesSection, "References", ReferenceCards(d.references))
  }

  /** Which sections the Modern template shows for `d`: the first four always,
      the last four when their lists are non-empty. */
  predicate Visible(d: ResumeData, k: SectionKind) {
    match k
    case SkillsSection => true
    case EducationSection => true
    case SummarySection => true
    case ExperienceSection => true
    case ProjectsSection => |d.projects| > 0
    case AchievementsSection => |d.achievements| > 0
    case LanguagesSection => |d.languages| > 0
    case ReferencesSection => |d.references| > 0
  }

  /** The page body in document order, each section guarded by its JSX condition. */
  function Slots(d: ResumeData): seq<Slot> {
    [Slot(true, SkillsPart(d)),
     Slot(true, EducationPart(d)),
     Slot(true, SummaryPart(d)),
     Slot(true, ExperiencePart(d)),
     Slot(|d.projects| > 0, ProjectsPart(d)),
     Slot(|d.achievements| > 0, AchievementsPart(d)),
     Slot(|d.languages| > 0, LanguagesPart(d)),
     Slot(|d.references| > 0, ReferencesPart(d))]
  }

  /** The guards of `Slots` agree with `Visible`. */
  lemma SlotsVisible(d: ResumeData)
    ensures forall k :: SlotShows(Slots(d), k) <==> Visible(d, k)
  {
    var slots := Slots(d);
    forall k ensures SlotShows(slots, k) <==> Visible(d, k) {
      if Visible(d, k) {
        match k
        case SkillsSection => assert slots[0].shown && slots[0].section.kind == k;
        case EducationSection => assert slots[1].shown && slots[1].section.kind == k;
        case SummarySection => assert slots[2].shown && slots[2].section.kind == k;
        case ExperienceSection => assert slots[3].shown && slots[3].section.kind == k;
        case ProjectsSection => assert slots[4].shown && slots[4].section.kind == k;
        case AchievementsSection => assert slots[5].shown && slots[5].section.kind == k;
        case LanguagesSection => assert slots[6].shown && slots[6].section.kind == k;
        case ReferencesSection => assert slots[7].shown && slots[7].section.kind == k;
      }
    }
  }

  /** Where each kind of section stands in the template's document order. */
  function Rank(k: SectionKind): int {
    match k
    case SkillsSection => 0
    case EducationSection => 1
    case SummarySection => 2
    case ExperienceSection => 3
    case ProjectsSection => 4
    case AchievementsSection => 5
    case LanguagesSection => 6
    case ReferencesSection => 7
  }

  /** The section the template builds for kind `k`. */
  function PartOf(d: ResumeData, k: SectionKind): Option<Section> {
    match k
    case SkillsSection => Some(SkillsPart(d))
    case EducationSection => Some(EducationPart(d))
    case SummarySection => Some(SummaryPart(d))
    case ExperienceSection => Some(ExperiencePart(d))
    case ProjectsSection => Some(ProjectsPart(d))
    case AchievementsSection => Some(AchievementsPart(d))
    case LanguagesSection => Some(LanguagesPart(d))
    case ReferencesSection => Some(ReferencesPart(d))
  }

  /** The rendered sections come in `Rank` order. */
  lemma SlotsOrdered(d: ResumeData)
    ensures Ranked(Emit(Slots(d)), Rank)
  {
    var slots := Slots(d);
    forall i | 0 <= i < |slots| ensures Rank(slots[i].section.kind) == i {
      assert slots[i] == Slots(d)[i];
    }
    EmitRanked(slots, Rank);
  }

  /** Every rendered section is the `PartOf` its kind. */
  lemma SlotsParts(d: ResumeData)
    ensures forall s :: s in Emit(Slots(d)) ==> PartOf(d, s.kind) == Some(s)
  {
    EmitParts(Slots(d), k => PartOf(d, k));
  }

  /** The Modern page: always the Helvetica font, every header item, and
      exactly the `Visible` sections. */
  function Render(d: ResumeData): (p: Page)
    ensures p.font == "Helvetica, Arial, sans-serif"
    ensures p.header == [NameHeading(d.personal.firstName + " " + d.personal.lastName),
                         TitleLine(d.personal.title), EmailItem(d.personal.email),
                         PhoneItem(d.personal.phone), WebsiteItem(d.personal.website)]
    ensures forall k :: Shows(p, k) <==> Visible(d, k)
    ensures Ranked(p.sections, Rank)
    ensures forall s :: s in p.sections ==> PartOf(d, s.kind) == Some(s)
  {
    EmitHas(Slots(d));
    SlotsOrdered(d);
    SlotsParts(d);
    SlotsVisible(d);
    Page(Font, FullHeader(d.personal), Emit(Slots(d)))
  }

  /** `Render`'s contract leaves no freedom: a section list in `Rank` order
      that shows exactly the `Visible` kinds, each section the `PartOf` its
      kind, is the rendered one. */
  lemma RenderDetermined(d: ResumeData, sections: seq<Section>)
    requires Ranked(sections, Rank)
    requires forall k :: Has(sections, k) <==> Visible(d, k)
    requires forall s :: s in sections ==> PartOf(d, s.kind) == Some(s)
    ensures sections == Render(d).sections
  {
    var p := Render(d);
    SectionsDetermined(sections, p.sections, Rank, k => PartOf(d, k));
  }

  /** What each section of a page built from this template's parts lists:
      one entry per element of its field. `Render` builds such a page. */
  lemma PartsEntries(d: ResumeData, sections: seq<Section>)
    requires forall s :: s in sections ==> PartOf(d, s.kind) == Some(s)
    ensures forall s :: s in sections && s.kind == SkillsSection ==> s.entries == Paragraphs(d.skills)
    ensures forall s :: s in sections && s.kind == EducationSection ==> s.entries == ShortSchools(d.education)
    ensures forall s :: s in sections && s.kind == SummarySection ==> s.entries == [Paragraph(d.summary)]
    ensures forall s :: s in sections && s.kind == ExperienceSection ==> s.entries == PlainJobs(d.experience)
    ensures forall s :: s in sections && s.kind == ProjectsSection ==> s.entries == ProjectCards(d.projects)
    ensures forall s :: s in sections && s.kind == AchievementsSection ==> s.entries == Paragraphs(d.achievements)
    ensures forall s :: s in sections && s.kind == LanguagesSection ==> s.entries == LanguageLines(d.languages)
    ensures forall s :: s in sections && s.kind == ReferencesSection ==> s.entries == ReferenceCards(d.references)
  {
  }
}
