/** The resume document: the records of app/lib/types.ts. Every list section is
    a sequence (never absent); the two optional fields (`responsibilitiesHtml`
    and a project's `url`) are `Option`s. */
module ResumeTypes {

  datatype Option<+T> = None | Some(value: T)

  /** JavaScript truthiness of an optional string: present and not "". */
  predicate Truthy(o: Option<string>) {
    o.Some? && o.value != ""
  }

  datatype PersonalDetails = PersonalDetails(
    firstName: string,
    lastName: string,
    title: string,
    email: string,
    phone: string,
    website: string)

  datatype Experience = Experience(
    title: string,
    company: string,
    startDate: string,
    endDate: string,
    responsibilities: seq<string>,
    responsibilitiesHtml: Option<string>)

  datatype Education = Education(school: string, degree: string, field: string, year: string)

  datatype Project = Project(name: string, description: string, url: Option<string>)

  /** The five proficiency levels a language may carry. */
  datatype Proficiency = Beginner | Intermediate | Advanced | Fluent | Native

  datatype Language = Language(name: string, proficiency: Proficiency)

  datatype Reference = Reference(name: string, company: string, title: string, phone: string, email: string)

  datatype ResumeData = ResumeData(
    personal: PersonalDetails,
    summary: string,
    experience: seq<Experience>,
    education: seq<Education>,
    skills: seq<string>,
    projects: seq<Project>,
    achievements: seq<string>,
    languages: seq<Language>,
    references: seq<Reference>)

  /** The string a proficiency level is stored and displayed as. */
  function ProficiencyName(p: Proficiency): string {
    match p
    case Beginner => "Beginner"
    case Intermediate => "Intermediate"
    case Advanced => "Advanced"
    case Fluent => "Fluent"
    case Native => "Native"
  }

  /** The value set of the `proficiency` union type: a string is a
      proficiency exactly when it is one of the five literal names. The
      application never parses one at run time; this function states which
      strings the type admits. */
  function ParseProficiency(s: string): (r: Option<Proficiency>)
    ensures r.Some? ==> ProficiencyName(r.value) == s
    ensures r.None? <==> s !in {"Beginner", "Intermediate", "Advanced", "Fluent", "Native"}
  {
    if s == "Beginner" then Some(Beginner)
    else if s == "Intermediate" then Some(Intermediate)
    else if s == "Advanced" then Some(Advanced)
    else if s == "Fluent" then Some(Fluent)
    else if s == "Native" then Some(Native)
    else None
  }

  /** Every level has a distinct name, and reading the name back gives the level. */
  lemma ProficiencyRoundTrip(p: Proficiency, q: Proficiency)
    ensures ParseProficiency(ProficiencyName(p)) == Some(p)
    ensures ProficiencyName(p) == ProficiencyName(q) ==> p == q
  {
  }
}
