/** ExecutiveTemplate: like Classic, a conditional header and conditional
    sections, but it shows all eight sections and groups the skills into
    Technical, Leadership and Other by keyword. */
module ExecutiveTemplate {
  import opened ResumeTypes
  import opened Text
  import opened Rendering

  const DefaultFont := "Calibri, sans-serif"

  const TechnicalKeywords: seq<string> :=
    ["javascript", "python", "react", "node", "sql", "aws", "docker", "api", "database", "html", "css", "typescript"]

  const LeadershipKeywords: seq<string> :=
    ["management", "leadership", "team", "project", "strategy", "planning"]

  datatype Category = Technical | Leadership | Other

  /** The heading a skill group is shown under (its key in the categories object). */
  function CategoryName(c: Category): string {
    match c
    case Technical => "Technical"
    case Leadership => "Leadership"
    case Other => "Other"
  }

  /** Some keyword occurs somewhere inside `lower` (the `||` chain of `includes` tests). */
  predicate MatchesAny(lower: string, keywords: seq<string>) {
    keywords != [] && (Contains(lower, keywords[0]) || MatchesAny(lower, keywords[1..]))
  }

  /** `MatchesAny` holds exactly when one of the keywords is contained in `lower`. */
  lemma {:induction false} MatchesAnyExists(lower: string, keywords: seq<string>)
    ensures MatchesAny(lower, keywords) <==> exists j :: 0 <= j < |keywords| && Contains(lower, keywords[j])
  {
    if keywords != [] {
      MatchesAnyExists(lower, keywords[1..]);
      if exists j :: 0 <= j < |keywords| && Contains(lower, keywords[j]) {
        var j :| 0 <= j < |keywords| && Contains(lower, keywords[j]);
        if j > 0 {
          assert keywords[1..][j - 1] == keywords[j];
        }
      }
      if exists j :: 0 <= j < |keywords[1..]| && Contains(lower, keywords[1..][j]) {
        var j :| 0 <= j < |keywords[1..]| && Contains(lower, keywords[1..][j]);
        assert keywords[j + 1] == keywords[1..][j];
      }
    }
  }

  /** The category of one skill: Technical when its lower-case form contains a
      technical keyword, otherwise Leadership when it contains a leadership
      keyword, otherwise Other. The technical test wins when both match. */
  function Categorize(skill: string): Category {
    var lower := ToLower(skill);
    if MatchesAny(lower, TechnicalKeywords) then Technical
    else if MatchesAny(lower, LeadershipKeywords) then Leadership
    else Other
  }

  /** The skills of category `c`, in their original order. */
  function Bucket(skills: seq<string>, c: Category): seq<string> {
    if skills == [] then []
    else if Categorize(skills[0]) == c then [skills[0]] + Bucket(skills[1..], c)
    else Bucket(skills[1..], c)
  }

  lemma {:induction false} BucketAppend(a: seq<string>, b: seq<string>, c: Category)
    ensures Bucket(a + b, c) == Bucket(a, c) + Bucket(b, c)
  {
    if a == [] {
      assert a + b == b;
    } else {
      assert (a + b)[1..] == a[1..] + b;
      BucketAppend(a[1..], b, c);
    }
  }

  /** A bucket holds exactly the skills of its category. */
  lemma {:induction false} BucketMembers(skills: seq<string>, c: Category)
    ensures forall x :: x in Bucket(skills, c) <==> x in skills && Categorize(x) == c
  {
    if skills != [] {
      BucketMembers(skills[1..], c);
      assert skills == [skills[0]] + skills[1..];
    }
  }

  /** The three buckets partition the skills: every skill lands in exactly one,
      so the sizes and the contents add up to the input. */
  lemma {:induction false} BucketsPartition(skills: seq<string>)
    ensures |Bucket(skills, Technical)| + |Bucket(skills, Leadership)| + |Bucket(skills, Other)| == |skills|
    ensures multiset(Bucket(skills, Technical)) + multiset(Bucket(skills, Leadership))
      + multiset(Bucket(skills, Other)) == multiset(skills)
  {
    if skills != [] {
      BucketsPartition(skills[1..]);
      assert skills == [skills[0]] + skills[1..];
    }
  }

  /** `categorizeSkills`: walks the skills once and pushes each onto the list of
      its category. */
  method CategorizeSkills(skills: seq<string>) returns (technical: seq<string>, leadership: seq<string>, other: seq<string>)
    ensures technical == Bucket(skills, Technical)
    ensures leadership == Bucket(skills, Leadership)
    ensures other == Bucket(skills, Other)
  {
    technical, leadership, other := [], [], [];
    var i := 0;
    while i < |skills|
      invariant 0 <= i <= |skills|
      invariant technical == Bucket(skills[..i], Technical)
      invariant leadership == Bucket(skills[..i], Leadership)
      invariant other == Bucket(skills[..i], Other)
    {
      var skill := skills[i];
      assert skills[..i + 1] == skills[..i] + [skill];
      BucketAppend(skills[..i], [skill], Technical);
      BucketAppend(skills[..i], [skill], Leadership);
      BucketAppend(skills[..i], [skill], Other);
      var lower := ToLower(skill);
      if MatchesAny(lower, TechnicalKeywords) {
        technical := technical + [skill];
      } else if MatchesAny(lower, LeadershipKeywords) {
        leadership := leadership + [skill];
      } else {
        other := other + [skill];
      }
      i := i + 1;
    }
    assert skills[..i] == skills;
  }

  /** One `SkillGroup` entry per category of `cats` whose bucket is non-empty, in order. */
  function GroupsOf(skills: seq<string>, cats: seq<Category>): seq<Entry> {
    if cats == [] then []
    else
      var b := Bucket(skills, cats[0]);
      (if |b| > 0 then [SkillGroup(CategoryName(cats[0]), b)] else []) + GroupsOf(skills, cats[1..])
  }

  /** The groups shown under Core Competencies: Technical, Leadership, Other
      (the key order of the categories object), empty ones skipped. */
  function SkillGroups(skills: seq<string>): seq<Entry> {
    GroupsOf(skills, [Technical, Leadership, Other])
  }

  /** The groups are the non-empty buckets, Technical first, then Leadership,
      then Other. */
  lemma SkillGroupsUnfold(skills: seq<string>)
    ensures var t := Bucket(skills, Technical);
      var l := Bucket(skills, Leadership);
      var o := Bucket(skills, Other);
      SkillGroups(skills) ==
        (if |t| > 0 then [SkillGroup("Technical", t)] else [])
        + (if |l| > 0 then [SkillGroup("Leadership", l)] else [])
        + (if |o| > 0 then [SkillGroup("Other", o)] else [])
  {
    var t := Bucket(skills, Technical);
    var l := Bucket(skills, Leadership);
    var o := Bucket(skills, Other);
    var cats := [Technical, Leadership, Other];
    assert cats[1..] == [Leadership, Other];
    assert cats[1..][1..] == [Other];
    assert [Other][1..] == [];
    assert GroupsOf(skills, [Other]) == if |o| > 0 then [SkillGroup("Other", o)] else [];
    assert GroupsOf(skills, [Leadership, Other])
      == (if |l| > 0 then [SkillGroup("Leadership", l)] else []) + GroupsOf(skills, [Other]);
  }

  /** The skills section is never headed without a group under it: there is at
      least one group exactly when there is at least one skill, no group is
      empty, and a category has a group exactly when it has a skill. */
  lemma SkillGroupsShape(skills: seq<string>)
    ensures |SkillGroups(skills)| > 0 <==> |skills| > 0
    ensures forall e :: e in SkillGroups(skills) ==> e.SkillGroup? && |e.skills| > 0
    ensures forall c :: SkillGroup(CategoryName(c), Bucket(skills, c)) in SkillGroups(skills) <==> |Bucket(skills, c)| > 0
  {
    SkillGroupsUnfold(skills);
    BucketsPartition(skills);
  }

  /** Matching ignores case: a skill and its lower-case form fall in the same category. */
  lemma CategorizeIgnoresCase(skill: string)
    ensures Categorize(ToLower(skill)) == Categorize(skill)
  {
    var lower := ToLower(skill);
    assert ToLower(lower) == lower by {
      forall k | 0 <= k < |lower| ensures ToLower(lower)[k] == lower[k] {
      }
    }
  }

  /** The category follows the keyword lists: a skill containing a technical
      keyword is Technical even when it also contains a leadership keyword; one
      containing only leadership keywords is Leadership; any other is Other. */
  lemma CategorizeSpec(skill: string)
    ensures var lower := ToLower(skill);
      && (Categorize(skill) == Technical <==> exists j :: 0 <= j < |TechnicalKeywords| && Contains(lower, TechnicalKeywords[j]))
      && (Categorize(skill) == Leadership <==>
            (forall j :: 0 <= j < |TechnicalKeywords| ==> !Contains(lower, TechnicalKeywords[j]))
            && exists j :: 0 <= j < |LeadershipKeywords| && Contains(lower, LeadershipKeywords[j]))
  {
    MatchesAnyExists(ToLower(skill), TechnicalKeywords);
    MatchesAnyExists(ToLower(skill), LeadershipKeywords);
  }

  // The eight sections the template can render, each built from its field.

  function SummaryPart(d: ResumeData): Section {
    Section(SummarySection, "Executive Summary", [Paragraph(d.summary)])
  }

  function ExperiencePart(d: ResumeData): Section {
    Section(ExperienceSection, "Professional Experience", Jobs(d.experience))
  }

  function EducationPart(d: ResumeData): Section {
    Section(EducationSection, "Education", Schools(d.education))
  }

  function SkillsPart(d: ResumeData): Section {
    Section(SkillsSection, "Core Competencies", SkillGroups(d.skills))
  }

  function ProjectsPart(d: ResumeData): Section {
    Section(ProjectsSection, "Key Projects & Initiatives", ProjectCards(d.projects))
  }

  function LanguagesPart(d: ResumeData): Section {
    Section(LanguagesSection, "Languages", LanguageLines(d.languages))
  }

  function AchievementsPart(d: ResumeData): Section {
    Section(AchievementsSection, "Key Achievements", Paragraphs(d.achievements))
  }

  function ReferencesPart(d: ResumeData): Section {
    Section(ReferencesSection, "Professional References", ReferenceCards(d.references))
  }

  /** Which sections the Executive template shows for `d`: each one exactly
      when its field is non-empty. */
  predicate Visible(d: ResumeData, k: SectionKind) {
    match k
    case SummarySection => d.summary != ""
    case ExperienceSection => |d.experience| > 0
    case EducationSection => |d.education| > 0
    case SkillsSection => |d.skills| > 0
    case ProjectsSection => |d.projects| > 0
    case LanguagesSection => |d.languages| > 0
    case AchievementsSection => |d.achievements| > 0
    case ReferencesSection => |d.references| > 0
  }

  /** The page body in document order, each section guarded by its JSX condition. */
  function Slots(d: ResumeData): seq<Slot> {
    [Slot(d.summary != "", SummaryPart(d)),
     Slot(|d.experience| > 0, ExperiencePart(d)),
     Slot(|d.education| > 0, EducationPart(d)),
     Slot(|d.skills| > 0, SkillsPart(d)),
     Slot(|d.projects| > 0, ProjectsPart(d)),
     Slot(|d.languages| > 0, LanguagesPart(d)),
     Slot(|d.achievements| > 0, AchievementsPart(d)),
     Slot(|d.references| > 0, ReferencesPart(d))]
  }

  /** The guards of `Slots` agree with `Visible`. */
  lemma SlotsVisible(d: ResumeData)
    ensures forall k :: SlotShows(Slots(d), k) <==> Visible(d, k)
  {
    var slots := Slots(d);
    forall k ensures SlotShows(slots, k) <==> Visible(d, k) {
      if Visible(d, k) {
        match k
        case SummarySection => assert slots[0].shown && slots[0].section.kind == k;
        case ExperienceSection => assert slots[1].shown && slots[1].section.kind == k;
        case EducationSection => assert slots[2].shown && slots[2].section.kind == k;
        case SkillsSection => assert slots[3].shown && slots[3].section.kind == k;
        case ProjectsSection => assert slots[4].shown && slots[4].section.kind == k;
        case LanguagesSection => assert slots[5].shown && slots[5].section.kind == k;
        case AchievementsSection => assert slots[6].shown && slots[6].section.kind == k;
        case ReferencesSection => assert slots[7].shown && slots[7].section.kind == k;
      }
    }
  }

  /** Where each kind of section stands in the template's document order. */
  function Rank(k: SectionKind): int {
    match k
    case SummarySection => 0
    case ExperienceSection => 1
    case EducationSection => 2
    case SkillsSection => 3
    case ProjectsSection => 4
    case LanguagesSection => 5
    case AchievementsSection => 6
    case ReferencesSection => 7
  }

  /** The section the template builds for kind `k`. */
  function PartOf(d: ResumeData, k: SectionKind): Option<Section> {
    match k
    case SummarySection => Some(SummaryPart(d))
    case ExperienceSection => Some(ExperiencePart(d))
    case EducationSection => Some(EducationPart(d))
    case SkillsSection => Some(SkillsPart(d))
    case ProjectsSection => Some(ProjectsPart(d))
    case LanguagesSection => Some(LanguagesPart(d))
    case AchievementsSection => Some(AchievementsPart(d))
    case ReferencesSection => Some(ReferencesPart(d))
  }

  /** The rendered sections come in `Rank` order. */
  lemma SlotsOrdered(d: ResumeData)
    ensures Ranked(Emit(Slots(d)), Rank)
  {
    var slots := Slots(d);
    forall i | 0 <= i < |slots| ensures Rank(slots[i].section.kind) == i {
      assert slots[i] == Slots(d)[i];
    }
    EmitRanked(slots, Rank);
  }

  /** Every rendered section is the `PartOf` its kind. */
  lemma SlotsParts(d: ResumeData)
    ensures forall s :: s in Emit(Slots(d)) ==> PartOf(d, s.kind) == Some(s)
  {
    EmitParts(Slots(d), k => PartOf(d, k));
  }

  /** The Executive page: the chosen font (Calibri by default), the conditional
      header, and exactly the `Visible` sections. */
  function Render(d: ResumeData, fontFamily: Option<string>): (p: Page)
    ensures p.font == if fontFamily.Some? then fontFamily.value else "Calibri, sans-serif"
    ensures p.header == ConditionalHeader(d.personal)
    ensures forall k :: Shows(p, k) <==> Visible(d, k)
    ensures Ranked(p.sections, Rank)
    ensures forall s :: s in p.sections ==> PartOf(d, s.kind) == Some(s)
  {
    EmitHas(Slots(d));
    SlotsOrdered(d);
    SlotsParts(d);
    SlotsVisible(d);
    Page(ChooseFont(fontFamily, DefaultFont), ConditionalHeader(d.personal), Emit(Slots(d)))
  }

  /** `Render`'s contract leaves no freedom: a section list in `Rank` order
      that shows exactly the `Visible` kinds, each section the `PartOf` its
      kind, is the rendered one. */
  lemma RenderDetermined(d: ResumeData, fontFamily: Option<string>, sections: seq<Section>)
    requires Ranked(sections, Rank)
    requires forall k :: Has(sections, k) <==> Visible(d, k)
    requires forall s :: s in sections ==> PartOf(d, s.kind) == Some(s)
    ensures sections == Render(d, fontFamily).sections
  {
    var p := Render(d, fontFamily);
    SectionsDetermined(sections, p.sections, Rank, k => PartOf(d, k));
  }

  /** What each section of a page built from this template's parts lists:
      one entry per element of its field. `Render` builds such a page. */
  lemma PartsEntries(d: ResumeData, sections: seq<Section>)
    requires forall s :: s in sections ==> PartOf(d, s.kind) == Some(s)
    ensures forall s :: s in sections && s.kind == SummarySection ==> s.entries == [Paragraph(d.summary)]
    ensures forall s :: s in sections && s.kind == ExperienceSection ==> s.entries == Jobs(d.experience)
    ensures forall s :: s in sections && s.kind == EducationSection ==> s.entries == Schools(d.education)
    ensures forall s :: s in sections && s.kind == SkillsSection ==> s.entries == SkillGroups(d.skills)
    ensures forall s :: s in sections && s.kind == ProjectsSection ==> s.entries == ProjectCards(d.projects)
    ensures forall s :: s in sections && s.kind == LanguagesSection ==> s.entries == LanguageLines(d.languages)
    ensures forall s :: s in sections && s.kind == AchievementsSection ==> s.entries == Paragraphs(d.achievements)
    ensures forall s :: s in sections && s.kind == ReferencesSection ==> s.entries == ReferenceCards(d.references)
  {
  }
}
