/** SoftwareDeveloperTemplate: a sidebar and a main column that always render
    all eight sections. Whatever the user has not filled in is taken from a
    built-in sample resume, so no section is ever empty. */
module SoftwareDeveloperTemplate {
  import opened ResumeTypes
  import opened Rendering

  const DefaultFont := "Inter, sans-serif"

  /** The sample resume of a full-stack developer that fills every gap. Long
      texts are written as concatenations of short literals, which are cheaper
      for the verifier; the strings are those of the sample. */
  const DefaultData := ResumeData(
    PersonalDetails("Alex", "Johnson", "Full Stack Software Developer",
      "alex.johnson@email.com", "+1 (555) 123-4567", "https://alexjohnson.dev"),
    "Experienced Full Stack " + "Software Developer with 5+ " + "years of expertise in " +
      "building scalable web " + "applications using React, " + "Node.js, and cloud " +
      "technologies. Passionate " + "about clean code, " + "test-driven development, " +
      "and creating exceptional " + "user experiences. Proven " + "track record of delivering " +
      "high-quality software " + "solutions in agile " + "environments.",
    [Experience("Senior Software Developer", "TechCorp Solutions", "Jan 2022", "Present",
       ["Lead development of " + "microservices architecture " + "serving 100K+ daily active " +
          "users",
        "Implemented CI/CD pipelines " + "reducing deployment time by " + "60%",
        "Mentored 3 junior " + "developers and conducted " + "code reviews",
        "Collaborated with product " + "team to define technical " + "requirements"],
       Some("<ul><li>Lead development of " + "microservices architecture " +
         "serving 100K+ daily active " + "users</li><li>Implemented " +
         "CI/CD pipelines reducing " + "deployment time by " + "60%</li><li>Mentored 3 " +
         "junior developers and " + "conducted code " + "reviews</li><li>Collaborated " +
         "with product team to define " + "technical " + "requirements</li></ul>")),
     Experience("Software Developer", "StartupXYZ", "Jun 2020", "Dec 2021",
       ["Built responsive web " + "applications using React " + "and TypeScript",
        "Developed RESTful APIs with " + "Node.js and Express",
        "Integrated third-party " + "payment systems (Stripe, " + "PayPal)",
        "Optimized database queries " + "improving performance by 40%"],
       Some("<ul><li>Built responsive " + "web applications using " + "React and " +
         "TypeScript</li><li>Developed " + "RESTful APIs with Node.js " + "and " +
         "Express</li><li>Integrated " + "third-party payment systems " + "(Stripe, " +
         "PayPal)</li><li>Optimized " + "database queries improving " +
         "performance by 40%</li></ul>")),
     Experience("Junior Software Developer", "DevStudio Inc", "Aug 2019", "May 2020",
       ["Developed frontend " + "components using React and " + "CSS",
        "Participated in agile " + "development processes",
        "Fixed bugs and implemented " + "feature requests",
        "Wrote unit tests achieving " + "85% code coverage"],
       Some("<ul><li>Developed frontend " + "components using React and " +
         "CSS</li><li>Participated in " + "agile development " + "processes</li><li>Fixed " +
         "bugs and implemented " + "feature " + "requests</li><li>Wrote unit " +
         "tests achieving 85% code " + "coverage</li></ul>"))],
    [Education("University of Technology", "Bachelor of Science", "Computer Science", "2019"),
     Education("Tech Academy", "Certificate", "Full Stack Web Development", "2018")],
    ["JavaScript/TypeScript", "React/Next.js", "Node.js/Express", "Python/Django", "PostgreSQL/MongoDB",
     "AWS/Docker", "Git/GitHub", "REST APIs/GraphQL", "Jest/Testing", "Agile/Scrum"],
    [Project("E-Commerce Platform",
       "Full-stack e-commerce " + "solution with React " + "frontend, Node.js backend, " +
         "and Stripe integration. " + "Features include user " + "authentication, product " +
         "catalog, shopping cart, and " + "order management.",
       Some("https://github.com/alexjohnson/ecommerce-platform")),
     Project("Task Management App",
       "Real-time collaborative " + "task management application " + "built with React, " +
         "Socket.io, and MongoDB. " + "Includes drag-and-drop " + "functionality, team " +
         "collaboration, and progress " + "tracking.",
       Some("https://github.com/alexjohnson/task-manager")),
     Project("Weather Dashboard",
       "Responsive weather " + "application using React and " + "OpenWeather API. Features " +
         "location-based forecasts, " + "interactive maps, and " + "weather alerts with PWA " +
         "capabilities.",
       Some("https://github.com/alexjohnson/weather-dashboard")),
     Project("API Gateway Service",
       "Microservices API gateway " + "built with Node.js and " + "Express. Implements rate " +
         "limiting, authentication, " + "request routing, and " + "monitoring for distributed " +
         "systems.",
       Some("https://github.com/alexjohnson/api-gateway"))],
    ["AWS Certified Solutions " + "Architect Associate (2023)",
     "Winner of TechCorp " + "Hackathon 2022 - Best " + "Innovation Award",
     "Contributed to 5+ open " + "source projects with 500+ " + "GitHub stars",
     "Speaker at Local JavaScript " + "Meetup (3 presentations)",
     "Reduced application load " + "time by 50% through " + "optimization",
     "Led migration of legacy " + "system to modern tech stack"],
    [Language("English", Native), Language("Spanish", Intermediate), Language("French", Beginner)],
    [Reference("Sarah Chen", "TechCorp Solutions", "Engineering Manager", "+1 (555) 987-6543", "sarah.chen@techcorp.com"),
     Reference("Michael Rodriguez", "StartupXYZ", "CTO", "+1 (555) 456-7890", "michael@startupxyz.com")])

  /** A resume with a non-empty summary and every list non-empty: one the
      template shows without borrowing anything from the sample. */
  predicate Complete(d: ResumeData) {
    d.summary != "" && |d.experience| > 0 && |d.education| > 0 && |d.skills| > 0
    && |d.projects| > 0 && |d.achievements| > 0 && |d.languages| > 0 && |d.references| > 0
  }

  /** The sample resume is itself complete. */
  lemma DefaultDataComplete()
    ensures Complete(DefaultData)
  {
  }

  /** `{ ...defaults, ...given }` over two personal records: every key of
      `given` is present, so each of its fields wins, even an empty one. */
  function SpreadPersonal(defaults: PersonalDetails, given: PersonalDetails): PersonalDetails {
    PersonalDetails(given.firstName, given.lastName, given.title, given.email, given.phone, given.website)
  }

  /** The data the template renders, with `defaults` standing for the sample:
      the supplied personal details, the supplied summary when it is
      non-empty, each supplied list when it is non-empty, and the value from
      `defaults` for everything else. */
  function Merge(defaults: ResumeData, d: ResumeData): (m: ResumeData)
    ensures Complete(defaults) ==> Complete(m)
  {
    ResumeData(
      SpreadPersonal(defaults.personal, d.personal),
      if d.summary != "" then d.summary else defaults.summary,
      if |d.experience| > 0 then d.experience else defaults.experience,
      if |d.education| > 0 then d.education else defaults.education,
      if |d.skills| > 0 then d.skills else defaults.skills,
      if |d.projects| > 0 then d.projects else defaults.projects,
      if |d.achievements| > 0 then d.achievements else defaults.achievements,
      if |d.languages| > 0 then d.languages else defaults.languages,
      if |d.references| > 0 then d.references else defaults.references)
  }

  /** Supplied content is never replaced, and the personal details are taken
      as supplied even where their fields are empty. */
  lemma MergeKeepsSupplied(defaults: ResumeData, d: ResumeData)
    ensures Merge(defaults, d).personal == d.personal
    ensures d.summary != "" ==> Merge(defaults, d).summary == d.summary
    ensures |d.experience| > 0 ==> Merge(defaults, d).experience == d.experience
    ensures |d.education| > 0 ==> Merge(defaults, d).education == d.education
    ensures |d.skills| > 0 ==> Merge(defaults, d).skills == d.skills
    ensures |d.projects| > 0 ==> Merge(defaults, d).projects == d.projects
    ensures |d.achievements| > 0 ==> Merge(defaults, d).achievements == d.achievements
    ensures |d.languages| > 0 ==> Merge(defaults, d).languages == d.languages
    ensures |d.references| > 0 ==> Merge(defaults, d).references == d.references
  {
  }

  /** A missing summary or an empty list is filled from `defaults`. */
  lemma MergeFillsGaps(defaults: ResumeData, d: ResumeData)
    ensures d.summary == "" ==> Merge(defaults, d).summary == defaults.summary
    ensures d.experience == [] ==> Merge(defaults, d).experience == defaults.experience
    ensures d.education == [] ==> Merge(defaults, d).education == defaults.education
    ensures d.skills == [] ==> Merge(defaults, d).skills == defaults.skills
    ensures d.projects == [] ==> Merge(defaults, d).projects == defaults.projects
    ensures d.achievements == [] ==> Merge(defaults, d).achievements == defaults.achievements
    ensures d.languages == [] ==> Merge(defaults, d).languages == defaults.languages
    ensures d.references == [] ==> Merge(defaults, d).references == defaults.references
  {
  }

  /** Over complete defaults, merging changes a resume exactly when it is
      incomplete; so merging twice is the same as merging once. */
  lemma MergeFixpoint(defaults: ResumeData, d: ResumeData)
    requires Complete(defaults)
    ensures Merge(defaults, d) == d <==> Complete(d)
    ensures Merge(defaults, Merge(defaults, d)) == Merge(defaults, d)
  {
    if Merge(defaults, d) == d {
      assert Complete(Merge(defaults, d));
    }
  }

  // The eight sections, each built from the merged data.

  function SkillsPart(m: ResumeData): Section {
    Section(SkillsSection, "Technical Skills", Paragraphs(m.skills))
  }

  function LanguagesPart(m: ResumeData): Section {
    Section(LanguagesSection, "Languages", LanguageLines(m.languages))
  }

  function SummaryPart(m: ResumeData): Section {
    Section(SummarySection, "Professional Summary", [Paragraph(m.summary)])
  }

  function ExperiencePart(m: ResumeData): Section {
    Section(ExperienceSection, "Professional Experience", Jobs(m.experience))
  }

  function EducationPart(m: ResumeData): Section {
    Section(EducationSection, "Education", Schools(m.education))
  }

  function ProjectsPart(m: ResumeData): Section {
    Section(ProjectsSection, "Key Projects", ProjectCards(m.projects))
  }

  function AchievementsPart(m: ResumeData): Section {
    Section(AchievementsSection, "Achievements & " + "Certifications", Paragraphs(m.achievements))
  }

  function ReferencesPart(m: ResumeData): Section {
    Section(ReferencesSection, "References", ReferenceCards(m.references))
  }

  /** Sidebar then main column, with no condition on any section. */
  function Slots(m: ResumeData): seq<Slot> {
    [Slot(true, SkillsPart(m)),
     Slot(true, LanguagesPart(m)),
     Slot(true, SummaryPart(m)),
     Slot(true, ExperiencePart(m)),
     Slot(true, EducationPart(m)),
     Slot(true, ProjectsPart(m)),
     Slot(true, AchievementsPart(m)),
     Slot(true, ReferencesPart(m))]
  }

  /** Every kind of section is rendered. */
  lemma SlotsAll(m: ResumeData)
    ensures forall k :: Has(Emit(Slots(m)), k)
  {
    var slots := Slots(m);
    EmitHas(slots);
    forall k ensures SlotShows(slots, k) {
      match k
      case SkillsSection => assert slots[0].shown && slots[0].section.kind == k;
      case LanguagesSection => assert slots[1].shown && slots[1].section.kind == k;
      case SummarySection => assert slots[2].shown && slots[2].section.kind == k;
      case ExperienceSection => assert slots[3].shown && slots[3].section.kind == k;
      case EducationSection => assert slots[4].shown && slots[4].section.kind == k;
      case ProjectsSection => assert slots[5].shown && slots[5].section.kind == k;
      case AchievementsSection => assert slots[6].shown && slots[6].section.kind == k;
      case ReferencesSection => assert slots[7].shown && slots[7].section.kind == k;
    }
  }

  /** For complete data every part has entries. */
  lemma PartsFilled(m: ResumeData)
    requires Complete(m)
    ensures forall k :: PartOf(m, k).Some? && |PartOf(m, k).value.entries| > 0
  {
    ParagraphsPointwise(m.skills);
    LanguageLinesPointwise(m.languages);
    JobsPointwise(m.experience);
    SchoolsPointwise(m.education);
    ProjectCardsPointwise(m.projects);
    ParagraphsPointwise(m.achievements);
    ReferenceCardsPointwise(m.references);
  }

  /** Rendering gives eight sections, and for complete data none of them is empty. */
  lemma SlotsFilled(m: ResumeData)
    ensures |Emit(Slots(m))| == 8
    ensures Complete(m) ==> forall i :: 0 <= i < |Emit(Slots(m))| ==> |Emit(Slots(m))[i].entries| > 0
  {
    EmitAllShown(Slots(m));
    if Complete(m) {
      PartsFilled(m);
      SlotsParts(m);
      var e := Emit(Slots(m));
      forall i | 0 <= i < |e| ensures |e[i].entries| > 0 {
        assert e[i] in e;
      }
    }
  }

  /** Where each kind of section stands in the template's document order. */
  function Rank(k: SectionKind): int {
    match k
    case SkillsSection => 0
    case LanguagesSection => 1
    case SummarySection => 2
    case ExperienceSection => 3
    case EducationSection => 4
    case ProjectsSection => 5
    case AchievementsSection => 6
    case ReferencesSection => 7
  }

  /** The section the template builds for kind `k`. */
  function PartOf(m: ResumeData, k: SectionKind): Option<Section> {
    match k
    case SkillsSection => Some(SkillsPart(m))
    case LanguagesSection => Some(LanguagesPart(m))
    case SummarySection => Some(SummaryPart(m))
    case ExperienceSection => Some(ExperiencePart(m))
    case EducationSection => Some(EducationPart(m))
    case ProjectsSection => Some(ProjectsPart(m))
    case AchievementsSection => Some(AchievementsPart(m))
    case ReferencesSection => Some(ReferencesPart(m))
  }

  /** The rendered sections come in `Rank` order. */
  lemma SlotsOrdered(m: ResumeData)
    ensures Ranked(Emit(Slots(m)), Rank)
  {
    var slots := Slots(m);
    forall i | 0 <= i < |slots| ensures Rank(slots[i].section.kind) == i {
      assert slots[i] == Slots(m)[i];
    }
    EmitRanked(slots, Rank);
  }

  /** Every rendered section is the `PartOf` its kind. */
  lemma SlotsParts(m: ResumeData)
    ensures forall s :: s in Emit(Slots(m)) ==> PartOf(m, s.kind) == Some(s)
  {
    EmitParts(Slots(m), k => PartOf(m, k));
  }

  /** The page for `d` with `defaults` standing for the sample: the chosen
      font (Inter by default), every supplied personal field in the header,
      and all eight sections, none of them empty when the defaults are complete. */
  function RenderWith(defaults: ResumeData, d: ResumeData, fontFamily: Option<string>): (p: Page)
    ensures p.font == if fontFamily.Some? then fontFamily.value else "Inter, sans-serif"
    ensures p.header == FullHeader(d.personal)
    ensures forall k :: Shows(p, k)
    ensures |p.sections| == 8
    ensures Complete(defaults) ==> forall i :: 0 <= i < |p.sections| ==> |p.sections[i].entries| > 0
    ensures Ranked(p.sections, Rank)
    ensures forall s :: s in p.sections ==> PartOf(Merge(defaults, d), s.kind) == Some(s)
  {
    var m := Merge(defaults, d);
    SlotsAll(m);
    SlotsOrdered(m);
    SlotsParts(m);
    SlotsFilled(m);
    Page(ChooseFont(fontFamily, DefaultFont), FullHeader(m.personal), Emit(Slots(m)))
  }

  /** `RenderWith`'s contract leaves no freedom: a section list in `Rank`
      order that shows every kind, each section the `PartOf` its kind in the
      merged data, is the rendered one. */
  lemma RenderDetermined(defaults: ResumeData, d: ResumeData, fontFamily: Option<string>, sections: seq<Section>)
    requires Ranked(sections, Rank)
    requires forall k :: Has(sections, k)
    requires forall s :: s in sections ==> PartOf(Merge(defaults, d), s.kind) == Some(s)
    ensures sections == RenderWith(defaults, d, fontFamily).sections
  {
    var p := RenderWith(defaults, d, fontFamily);
    forall k ensures Has(p.sections, k) {
      assert Shows(p, k);
    }
    SectionsDetermined(sections, p.sections, Rank, k => PartOf(Merge(defaults, d), k));
  }

  /** What each section of a page built from this template's parts lists:
      one entry per element of its field. `Render` builds such a page. */
  lemma PartsEntries(m: ResumeData, sections: seq<Section>)
    requires forall s :: s in sections ==> PartOf(m, s.kind) == Some(s)
    ensures forall s :: s in sections && s.kind == SkillsSection ==> s.entries == Paragraphs(m.skills)
    ensures forall s :: s in sections && s.kind == LanguagesSection ==> s.entries == LanguageLines(m.languages)
    ensures forall s :: s in sections && s.kind == SummarySection ==> s.entries == [Paragraph(m.summary)]
    ensures forall s :: s in sections && s.kind == ExperienceSection ==> s.entries == Jobs(m.experience)
    ensures forall s :: s in sections && s.kind == EducationSection ==> s.entries == Schools(m.education)
    ensures forall s :: s in sections && s.kind == ProjectsSection ==> s.entries == ProjectCards(m.projects)
    ensures forall s :: s in sections && s.kind == AchievementsSection ==> s.entries == Paragraphs(m.achievements)
    ensures forall s :: s in sections && s.kind == ReferencesSection ==> s.entries == ReferenceCards(m.references)
  {
  }

  /** The Software Developer page: `RenderWith` over the built-in sample,
      which `DefaultDataComplete` shows is complete, so every section is
      rendered and none is empty. */
  function Render(d: ResumeData, fontFamily: Option<string>): Page {
    RenderWith(DefaultData, d, fontFamily)
  }
}
