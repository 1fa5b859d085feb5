/** CreativeTemplate: a sidebar with a monogram, contact details, skill bars
    and languages, beside a main column with the remaining sections. Every
    section appears only when it has content. */
module CreativeTemplate {
  import opened ResumeTypes
  import opened Text
  import opened Rendering

  const DefaultFont := "Inter, sans-serif"

  /** How many skills get a bar (`skills.slice(0, 6)`). */
  const MaxSkillBars := 6

  /** `getInitials`: the upper-cased first letters of the first and last names;
      an empty name contributes nothing. */
  function Initials(p: PersonalDetails): (r: string)
    ensures |r| == (if p.firstName == "" then 0 else 1) + (if p.lastName == "" then 0 else 1)
    ensures p.firstName != "" ==> r[0] == UpperChar(p.firstName[0])
    ensures p.lastName != "" ==> r[|r| - 1] == UpperChar(p.lastName[0])
  {
    ToUpper(FirstChar(p.firstName) + FirstChar(p.lastName))
  }

  /** `getSkillLevel`: spreads the levels evenly from 70 to 95 over `total`
      positions (a single skill gets 70). */
  function SkillLevel(index: nat, total: nat): real {
    var step := 25.0 / (if total > 1 then total - 1 else 1) as real;
    70.0 + index as real * step
  }

  /** The first skill is at 70 and, with two or more skills, the last is at 95. */
  lemma SkillLevelEnds(total: nat)
    ensures SkillLevel(0, total) == 70.0
    ensures total > 1 ==> SkillLevel(total - 1, total) == 95.0
  {
  }

  /** Levels rise strictly with the position and stay within 70..95. */
  lemma SkillLevelRange(i: nat, j: nat, total: nat)
    requires i < j < total
    ensures 70.0 <= SkillLevel(i, total) < SkillLevel(j, total) <= 95.0
  {
    var n := (total - 1) as real;
    var step := 25.0 / n;
    assert step > 0.0;
    assert (j - i) as real * step > 0.0;
    assert SkillLevel(j, total) - SkillLevel(i, total) == (j - i) as real * step;
    assert (total - 1 - j) as real * step >= 0.0;
    assert 95.0 - SkillLevel(j, total) == (total - 1 - j) as real * step;
  }

  /** Only six bars are drawn but the levels are spread over all the skills,
      so with more than six skills no bar reaches 95. */
  lemma TruncatedBarsStayBelowTop(i: nat, total: nat)
    requires i < MaxSkillBars < total
    ensures SkillLevel(i, total) < 95.0
  {
    SkillLevelRange(i, total - 1, total);
  }

  /** Bars for `skills`, the first of which sits at position `from` of `total`. */
  function Bars(skills: seq<string>, from: nat, total: nat): seq<Entry>
    decreases |skills|
  {
    if skills == [] then []
    else [SkillBar(skills[0], SkillLevel(from, total))] + Bars(skills[1..], from + 1, total)
  }

  /** One bar for each of the first six skills, levels computed against the full count. */
  function SkillBars(skills: seq<string>): seq<Entry> {
    var shown := if |skills| <= MaxSkillBars then skills else skills[..MaxSkillBars];
    Bars(shown, 0, |skills|)
  }

  lemma {:induction false} BarsPointwise(skills: seq<string>, from: nat, total: nat)
    ensures |Bars(skills, from, total)| == |skills|
    ensures forall i :: 0 <= i < |skills| ==>
      Bars(skills, from, total)[i] == SkillBar(skills[i], SkillLevel(from + i, total))
    decreases |skills|
  {
    if skills != [] {
      BarsPointwise(skills[1..], from + 1, total);
    }
  }

  /** At most six bars, one per leading skill in order, levels spread over all skills. */
  lemma SkillBarsPointwise(skills: seq<string>)
    ensures |SkillBars(skills)| == if |skills| <= MaxSkillBars then |skills| else MaxSkillBars
    ensures forall i :: 0 <= i < |SkillBars(skills)| ==>
      SkillBars(skills)[i] == SkillBar(skills[i], SkillLevel(i, |skills|))
  {
    var shown := if |skills| <= MaxSkillBars then skills else skills[..MaxSkillBars];
    var bars := Bars(shown, 0, |skills|);
    assert SkillBars(skills) == bars;
    BarsPointwise(shown, 0, |skills|);
    forall i | 0 <= i < |bars| ensures bars[i] == SkillBar(skills[i], SkillLevel(i, |skills|)) {
      assert shown[i] == skills[i];
      assert bars[i] == SkillBar(shown[i], SkillLevel(0 + i, |skills|));
    }
  }

  /** The sidebar header: monogram, name, title when non-empty, the "Contact"
      heading always, then email, phone and website each when non-empty. */
  function Header(p: PersonalDetails): (h: seq<HeaderItem>)
    ensures |h| >= 3 && h[0] == Monogram(Initials(p)) && h[1] == NameHeading(p.firstName + " " + p.lastName)
    ensures ContactHeading in h
    ensures TitleLine(p.title) in h <==> p.title != ""
    ensures EmailItem(p.email) in h <==> p.email != ""
    ensures PhoneItem(p.phone) in h <==> p.phone != ""
    ensures WebsiteItem(p.website) in h <==> p.website != ""
  {
    [Monogram(Initials(p)), NameHeading(FullName(p))]
      + IfPresent(p.title, TitleLine(p.title))
      + [ContactHeading]
      + IfPresent(p.email, EmailItem(p.email))
      + IfPresent(p.phone, PhoneItem(p.phone))
      + IfPresent(p.website, WebsiteItem(p.website))
  }

  /** The sidebar header lists its items in the order monogram, name, title,
      "Contact", email, phone, website, holds one item per non-empty field
      besides the three fixed ones, and nothing else. */
  lemma HeaderShape(p: PersonalDetails)
    ensures HeaderOrdered(Header(p))
    ensures |Header(p)| == 3 + Present(p.title) + Present(p.email) + Present(p.phone) + Present(p.website)
    ensures forall x :: x in Header(p) ==>
      x == Monogram(Initials(p)) || x == NameHeading(p.firstName + " " + p.lastName) ||
      x == TitleLine(p.title) || x == ContactHeading ||
      x == EmailItem(p.email) || x == PhoneItem(p.phone) || x == WebsiteItem(p.website)
  {
    var h0 := [Monogram(Initials(p)), NameHeading(FullName(p))];
    var h1 := h0 + IfPresent(p.title, TitleLine(p.title));
    var h2 := h1 + IfPresent("Contact", ContactHeading);
    var h3 := h2 + IfPresent(p.email, EmailItem(p.email));
    var h4 := h3 + IfPresent(p.phone, PhoneItem(p.phone));
    var h5 := h4 + IfPresent(p.website, WebsiteItem(p.website));
    assert Header(p) == h5 by {
      assert IfPresent("Contact", ContactHeading) == [ContactHeading];
    }
    assert HeaderOrdered(h0);
    ExtendHeader(h0, p.title, TitleLine(p.title));
    ExtendHeader(h1, "Contact", ContactHeading);
    ExtendHeader(h2, p.email, EmailItem(p.email));
    ExtendHeader(h3, p.phone, PhoneItem(p.phone));
    ExtendHeader(h4, p.website, WebsiteItem(p.website));
  }

  // The eight sections the template can render, each built from its field.

  function SkillsPart(d: ResumeData): Section {
    Section(SkillsSection, "Skills", SkillBars(d.skills))
  }

  function LanguagesPart(d: ResumeData): Section {
    Section(LanguagesSection, "Languages", LanguageLines(d.languages))
  }

  function SummaryPart(d: ResumeData): Section {
    Section(SummarySection, "About Me", [Paragraph(d.summary)])
  }

  function ExperiencePart(d: ResumeData): Section {
    Section(ExperienceSection, "Experience", Jobs(d.experience))
  }

  function EducationPart(d: ResumeData): Section {
    Section(EducationSection, "Education", Schools(d.education))
  }

  function ProjectsPart(d: ResumeData): Section {
    Section(ProjectsSection, "Projects", ProjectCards(d.projects))
  }

  function AchievementsPart(d: ResumeData): Section {
    Section(AchievementsSection, "Achievements", Paragraphs(d.achievements))
  }

  function ReferencesPart(d: ResumeData): Section {
    Section(ReferencesSection, "References", ReferenceCards(d.references))
  }

  /** Which sections the Creative template shows for `d`: each one exactly
      when its field is non-empty. */
  predicate Visible(d: ResumeData, k: SectionKind) {
    match k
    case SkillsSection => |d.skills| > 0
    case LanguagesSection => |d.languages| > 0
    case SummarySection => d.summary != ""
    case ExperienceSection => |d.experience| > 0
    case EducationSection => |d.education| > 0
    case ProjectsSection => |d.projects| > 0
    case AchievementsSection => |d.achievements| > 0
    case ReferencesSection => |d.references| > 0
  }

  /** The sidebar sections, then the main column, each guarded by its JSX condition. */
  function Slots(d: ResumeData): seq<Slot> {
    [Slot(|d.skills| > 0, SkillsPart(d)),
     Slot(|d.languages| > 0, LanguagesPart(d)),
     Slot(d.summary != "", SummaryPart(d)),
     Slot(|d.experience| > 0, ExperiencePart(d)),
     Slot(|d.education| > 0, EducationPart(d)),
     Slot(|d.projects| > 0, ProjectsPart(d)),
     Slot(|d.achievements| > 0, AchievementsPart(d)),
     Slot(|d.references| > 0, ReferencesPart(d))]
  }

  /** The guards of `Slots` agree with `Visible`. */
  lemma SlotsVisible(d: ResumeData)
    ensures forall k :: SlotShows(Slots(d), k) <==> Visible(d, k)
  {
    var slots := Slots(d);
    forall k ensures SlotShows(slots, k) <==> Visible(d, k) {
      if Visible(d, k) {
        match k
        case SkillsSection => assert slots[0].shown && slots[0].section.kind == k;
        case LanguagesSection => assert slots[1].shown && slots[1].section.kind == k;
        case SummarySection => assert slots[2].shown && slots[2].section.kind == k;
        case ExperienceSection => assert slots[3].shown && slots[3].section.kind == k;
        case EducationSection => assert slots[4].shown && slots[4].section.kind == k;
        case ProjectsSection => assert slots[5].shown && slots[5].section.kind == k;
        case AchievementsSection => assert slots[6].shown && slots[6].section.kind == k;
        case ReferencesSection => assert slots[7].shown && slots[7].section.kind == k;
      }
    }
  }

  /** Where each kind of section stands in the template's document order. */
  function Rank(k: SectionKind): int {
    match k
    case SkillsSection => 0
    case LanguagesSection => 1
    case SummarySection => 2
    case ExperienceSection => 3
    case EducationSection => 4
    case ProjectsSection => 5
    case AchievementsSection => 6
    case ReferencesSection => 7
  }

  /** The section the template builds for kind `k`. */
  function PartOf(d: ResumeData, k: SectionKind): Option<Section> {
    match k
    case SkillsSection => Some(SkillsPart(d))
    case LanguagesSection => Some(LanguagesPart(d))
    case SummarySection => Some(SummaryPart(d))
    case ExperienceSection => Some(ExperiencePart(d))
    case EducationSection => Some(EducationPart(d))
    case ProjectsSection => Some(ProjectsPart(d))
    case AchievementsSection => Some(AchievementsPart(d))
    case ReferencesSection => Some(ReferencesPart(d))
  }

  /** The rendered sections come in `Rank` order. */
  lemma SlotsOrdered(d: ResumeData)
    ensures Ranked(Emit(Slots(d)), Rank)
  {
    var slots := Slots(d);
    forall i | 0 <= i < |slots| ensures Rank(slots[i].section.kind) == i {
      assert slots[i] == Slots(d)[i];
    }
    EmitRanked(slots, Rank);
  }

  /** Every rendered section is the `PartOf` its kind. */
  lemma SlotsParts(d: ResumeData)
    ensures forall s :: s in Emit(Slots(d)) ==> PartOf(d, s.kind) == Some(s)
  {
    EmitParts(Slots(d), k => PartOf(d, k));
  }

  /** The Creative page: the chosen font (Inter by default), the sidebar
      header, and exactly the `Visible` sections. */
  function Render(d: ResumeData, fontFamily: Option<string>): (p: Page)
    ensures p.font == if fontFamily.Some? then fontFamily.value else "Inter, sans-serif"
    ensures p.header == Header(d.personal)
    ensures forall k :: Shows(p, k) <==> Visible(d, k)
    ensures Ranked(p.sections, Rank)
    ensures forall s :: s in p.sections ==> PartOf(d, s.kind) == Some(s)
  {
    EmitHas(Slots(d));
    SlotsOrdered(d);
    SlotsParts(d);
    SlotsVisible(d);
    Page(ChooseFont(fontFamily, DefaultFont), Header(d.personal), Emit(Slots(d)))
  }

  /** `Render`'s contract leaves no freedom: a section list in `Rank` order
      that shows exactly the `Visible` kinds, each section the `PartOf` its
      kind, is the rendered one. */
  lemma RenderDetermined(d: ResumeData, fontFamily: Option<string>, sections: seq<Section>)
    requires Ranked(sections, Rank)
    requires forall k :: Has(sections, k) <==> Visible(d, k)
    requires forall s :: s in sections ==> PartOf(d, s.kind) == Some(s)
    ensures sections == Render(d, fontFamily).sections
  {
    var p := Render(d, fontFamily);
    SectionsDetermined(sections, p.sections, Rank, k => PartOf(d, k));
  }

  /** What each section of a page built from this template's parts lists:
      one entry per element of its field. `Render` builds such a page. */
  lemma PartsEntries(d: ResumeData, sections: seq<Section>)
    requires forall s :: s in sections ==> PartOf(d, s.kind) == Some(s)
    ensures forall s :: s in sections && s.kind == SkillsSection ==> s.entries == SkillBars(d.skills)
    ensures forall s :: s in sections && s.kind == LanguagesSection ==> s.entries == LanguageLines(d.languages)
    ensures forall s :: s in sections && s.kind == SummarySection ==> s.entries == [Paragraph(d.summary)]
    ensures forall s :: s in sections && s.kind == ExperienceSection ==> s.entries == Jobs(d.experience)
    ensures forall s :: s in sections && s.kind == EducationSection ==> s.entries == Schools(d.education)
    ensures forall s :: s in sections && s.kind == ProjectsSection ==> s.entries == ProjectCards(d.projects)
    ensures forall s :: s in sections && s.kind == AchievementsSection ==> s.entries == Paragraphs(d.achievements)
    ensures forall s :: s in sections && s.kind == ReferencesSection ==> s.entries == ReferenceCards(d.references)
  {
  }
}
