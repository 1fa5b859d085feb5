/** The vocabulary the five resume templates are abstracted into. A rendered
    page is its font, the header items it shows and its sections in display
    order; each section carries its kind, its heading text and one entry per
    element it displays. Styling (colours, sizes, layout) is not modelled. */
module Rendering {
  import opened ResumeTypes

  /** What is shown under an experience entry. */
  datatype ResponsibilityBlock =
    | Rich(html: string)          // `responsibilitiesHtml` injected as HTML, verbatim
    | Plain(items: seq<string>)   // a bullet list of `responsibilities`
    | NoList                      // nothing

  datatype HeaderItem =
    | Monogram(initials: string)
    | NameHeading(text: string)
    | TitleLine(text: string)
    | ContactHeading
    | EmailItem(text: string)
    | PhoneItem(text: string)
    | WebsiteItem(text: string)

  datatype SectionKind =
    | SummarySection
    | ExperienceSection
    | EducationSection
    | SkillsSection
    | ProjectsSection
    | AchievementsSection
    | LanguagesSection
    | ReferencesSection

  datatype Entry =
    | Paragraph(text: string)
    | Job(title: string, company: string, startDate: string, endDate: string, block: ResponsibilityBlock)
    | School(degree: string, field: Option<string>, school: string, year: string)
    | ProjectCard(name: string, link: Option<string>, description: string)
    | LanguageLine(name: string, proficiency: Proficiency)
    | ReferenceCard(reference: Reference)
    | SkillBar(skill: string, level: real)
    | SkillGroup(category: string, skills: seq<string>)

  datatype Section = Section(kind: SectionKind, heading: string, entries: seq<Entry>)

  datatype Page = Page(font: string, header: seq<HeaderItem>, sections: seq<Section>)

  /** Some section in `sections` is of kind `k`. */
  predicate Has(sections: seq<Section>, k: SectionKind) {
    sections != [] && (sections[0].kind == k || Has(sections[1..], k))
  }

  /** Section `k` appears on page `p`. */
  predicate Shows(p: Page, k: SectionKind) {
    Has(p.sections, k)
  }

  lemma {:induction false} HasAppend(a: seq<Section>, b: seq<Section>, k: SectionKind)
    ensures Has(a + b, k) <==> Has(a, k) || Has(b, k)
  {
    if a == [] {
      assert a + b == b;
    } else {
      assert (a + b)[1..] == a[1..] + b;
      HasAppend(a[1..], b, k);
    }
  }

  /** `Has` is membership of a section of that kind. */
  lemma {:induction false} HasMember(sections: seq<Section>, k: SectionKind)
    ensures Has(sections, k) <==> exists s :: s in sections && s.kind == k
  {
    if sections != [] {
      HasMember(sections[1..], k);
      assert sections == [sections[0]] + sections[1..];
    }
  }

  /** The font a template uses: the `fontFamily` prop when one is passed,
      otherwise the template's own default (a JavaScript default parameter). */
  function ChooseFont(fontFamily: Option<string>, default: string): string {
    if fontFamily.Some? then fontFamily.value else default
  }

  /** `{firstName} {lastName}`: the name heading every template shows. */
  function FullName(p: PersonalDetails): string {
    p.firstName + " " + p.lastName
  }

  /** `{value && <item/>}`: the item when `value` is non-empty, otherwise nothing. */
  function IfPresent(value: string, item: HeaderItem): seq<HeaderItem> {
    if value != "" then [item] else []
  }

  /** The position of each kind of header item in every template's header:
      monogram, name, title, the "Contact" heading, email, phone, website. */
  function HeaderRank(item: HeaderItem): int {
    match item
    case Monogram(_) => 0
    case NameHeading(_) => 1
    case TitleLine(_) => 2
    case ContactHeading => 3
    case EmailItem(_) => 4
    case PhoneItem(_) => 5
    case WebsiteItem(_) => 6
  }

  /** The items of `h` come in header order, each kind at most once. */
  predicate HeaderOrdered(h: seq<HeaderItem>) {
    forall i, j :: 0 <= i < j < |h| ==> HeaderRank(h[i]) < HeaderRank(h[j])
  }

  /** 1 when the field is shown, 0 when it is left out. */
  function Present(value: string): nat {
    if value != "" then 1 else 0
  }

  /** Appending an item that ranks above every item of an ordered header,
      when its field is non-empty, keeps the header ordered and adds only that
      item. */
  lemma ExtendHeader(h: seq<HeaderItem>, value: string, item: HeaderItem)
    requires HeaderOrdered(h)
    requires forall i :: 0 <= i < |h| ==> HeaderRank(h[i]) < HeaderRank(item)
    ensures HeaderOrdered(h + IfPresent(value, item))
    ensures forall i :: 0 <= i < |h + IfPresent(value, item)| ==> HeaderRank((h + IfPresent(value, item))[i]) <= HeaderRank(item)
    ensures |h + IfPresent(value, item)| == |h| + Present(value)
    ensures forall x :: x in h + IfPresent(value, item) ==> x in h || x == item
  {
  }

  /** The header of the Classic and Executive templates: the name always comes
      first; title, email, phone and website each appear only when non-empty. */
  function ConditionalHeader(p: PersonalDetails): (h: seq<HeaderItem>)
    ensures |h| >= 1 && h[0] == NameHeading(p.firstName + " " + p.lastName)
    ensures TitleLine(p.title) in h <==> p.title != ""
    ensures EmailItem(p.email) in h <==> p.email != ""
    ensures PhoneItem(p.phone) in h <==> p.phone != ""
    ensures WebsiteItem(p.website) in h <==> p.website != ""
  {
    [NameHeading(FullName(p))]
      + IfPresent(p.title, TitleLine(p.title))
      + IfPresent(p.email, EmailItem(p.email))
      + IfPresent(p.phone, PhoneItem(p.phone))
      + IfPresent(p.website, WebsiteItem(p.website))
  }

  /** The conditional header lists its items in the order name, title, email,
      phone, website, holds one item per non-empty field besides the name,
      and nothing else. */
  lemma ConditionalHeaderShape(p: PersonalDetails)
    ensures HeaderOrdered(ConditionalHeader(p))
    ensures |ConditionalHeader(p)| == 1 + Present(p.title) + Present(p.email) + Present(p.phone) + Present(p.website)
    ensures forall x :: x in ConditionalHeader(p) ==>
      x == NameHeading(p.firstName + " " + p.lastName) || x == TitleLine(p.title) ||
      x == EmailItem(p.email) || x == PhoneItem(p.phone) || x == WebsiteItem(p.website)
  {
    var h0 := [NameHeading(FullName(p))];
    var h1 := h0 + IfPresent(p.title, TitleLine(p.title));
    var h2 := h1 + IfPresent(p.email, EmailItem(p.email));
    var h3 := h2 + IfPresent(p.phone, PhoneItem(p.phone));
    ExtendHeader(h0, p.title, TitleLine(p.title));
    ExtendHeader(h1, p.email, EmailItem(p.email));
    ExtendHeader(h2, p.phone, PhoneItem(p.phone));
    ExtendHeader(h3, p.website, WebsiteItem(p.website));
    assert ConditionalHeader(p) == h3 + IfPresent(p.website, WebsiteItem(p.website));
  }

  /** The header of the Modern and Software Developer templates: the name,
      then title, email, phone and website, each shown even when empty. */
  function FullHeader(p: PersonalDetails): seq<HeaderItem> {
    [NameHeading(FullName(p)), TitleLine(p.title), EmailItem(p.email), PhoneItem(p.phone), WebsiteItem(p.website)]
  }

  /** A section together with the condition under which the template renders it. */
  datatype Slot = Slot(shown: bool, section: Section)

  /** The sections of `slots` whose condition holds, in order. */
  function Emit(slots: seq<Slot>): seq<Section> {
    if slots == [] then []
    else (if slots[0].shown then [slots[0].section] else []) + Emit(slots[1..])
  }

  /** Some shown slot holds a section of kind `k`. */
  predicate SlotShows(slots: seq<Slot>, k: SectionKind) {
    exists i :: 0 <= i < |slots| && slots[i].shown && slots[i].section.kind == k
  }

  lemma {:induction false} EmitHas(slots: seq<Slot>)
    ensures forall k :: Has(Emit(slots), k) <==> SlotShows(slots, k)
  {
    if slots != [] {
      EmitHas(slots[1..]);
      var head := if slots[0].shown then [slots[0].section] else [];
      forall k ensures Has(Emit(slots), k) <==> SlotShows(slots, k) {
        HasAppend(head, Emit(slots[1..]), k);
        if SlotShows(slots[1..], k) {
          var i :| 0 <= i < |slots[1..]| && slots[1..][i].shown && slots[1..][i].section.kind == k;
          assert slots[i + 1] == slots[1..][i];
        }
        if SlotShows(slots, k) && !(slots[0].shown && slots[0].section.kind == k) {
          var i :| 0 <= i < |slots| && slots[i].shown && slots[i].section.kind == k;
          assert slots[1..][i - 1] == slots[i];
        }
      }
    }
  }

  /** When every condition holds, every section is emitted, in order. */
  lemma {:induction false} EmitAllShown(slots: seq<Slot>)
    requires forall i :: 0 <= i < |slots| ==> slots[i].shown
    ensures |Emit(slots)| == |slots|
    ensures forall i :: 0 <= i < |slots| ==> Emit(slots)[i] == slots[i].section
  {
    if slots != [] {
      EmitAllShown(slots[1..]);
    }
  }

  /** The kinds of `sections` strictly increase under `rank`: the sections
      come in the document order `rank` lists. */
  predicate Ranked(sections: seq<Section>, rank: SectionKind -> int) {
    forall i, j :: 0 <= i < j < |sections| ==> rank(sections[i].kind) < rank(sections[j].kind)
  }

  /** The slots' kinds strictly increase under `rank`. */
  predicate SlotsRanked(slots: seq<Slot>, rank: SectionKind -> int) {
    forall i, j :: 0 <= i < j < |slots| ==> rank(slots[i].section.kind) < rank(slots[j].section.kind)
  }

  /** Every emitted section is the section of some shown slot. */
  lemma {:induction false} EmitOrigin(slots: seq<Slot>)
    ensures forall s :: s in Emit(slots) ==> exists i :: 0 <= i < |slots| && slots[i].shown && slots[i].section == s
  {
    if slots != [] {
      var tail := slots[1..];
      EmitOrigin(tail);
      var head := if slots[0].shown then [slots[0].section] else [];
      assert Emit(slots) == head + Emit(tail);
      forall s | s in Emit(slots)
        ensures exists i :: 0 <= i < |slots| && slots[i].shown && slots[i].section == s
      {
        if s in head {
          assert slots[0].shown && slots[0].section == s;
        } else {
          assert s in Emit(tail);
          var i :| 0 <= i < |tail| && tail[i].shown && tail[i].section == s;
          assert slots[i + 1] == tail[i];
        }
      }
    }
  }

  /** Sections emitted from slots that all rank above `bound` rank above it too. */
  lemma EmitAbove(slots: seq<Slot>, rank: SectionKind -> int, bound: int)
    requires forall i :: 0 <= i < |slots| ==> bound < rank(slots[i].section.kind)
    ensures forall s :: s in Emit(slots) ==> bound < rank(s.kind)
  {
    EmitOrigin(slots);
  }

  /** At most one section in front of a rank-ordered list that ranks above it
      keeps the list rank-ordered. */
  lemma RankedPrepend(head: seq<Section>, rest: seq<Section>, rank: SectionKind -> int)
    requires |head| <= 1 && Ranked(rest, rank)
    requires forall s, t :: s in head && t in rest ==> rank(s.kind) < rank(t.kind)
    ensures Ranked(head + rest, rank)
  {
    forall i, j | 0 <= i < j < |head + rest|
      ensures rank((head + rest)[i].kind) < rank((head + rest)[j].kind)
    {
      if i >= |head| {
        assert (head + rest)[i] == rest[i - |head|] && (head + rest)[j] == rest[j - |head|];
      } else {
        assert (head + rest)[i] in head && (head + rest)[j] == rest[j - 1];
      }
    }
  }

  /** Slots laid out in rank order emit their sections in rank order. */
  lemma {:induction false} EmitRanked(slots: seq<Slot>, rank: SectionKind -> int)
    requires SlotsRanked(slots, rank)
    ensures Ranked(Emit(slots), rank)
  {
    if slots != [] {
      var tail := slots[1..];
      assert forall i :: 0 <= i < |tail| ==> tail[i] == slots[i + 1];
      EmitRanked(tail, rank);
      EmitAbove(tail, rank, rank(slots[0].section.kind));
      var head := if slots[0].shown then [slots[0].section] else [];
      RankedPrepend(head, Emit(tail), rank);
    }
  }

  /** The tail of a rank-ordered list is rank-ordered and ranks above its head. */
  lemma RankedTail(a: seq<Section>, rank: SectionKind -> int)
    requires Ranked(a, rank) && a != []
    ensures a[0] in a && Ranked(a[1..], rank)
    ensures forall s :: s in a <==> s == a[0] || s in a[1..]
    ensures forall s :: s in a[1..] ==> rank(a[0].kind) < rank(s.kind)
  {
    assert a == [a[0]] + a[1..];
    forall s | s in a[1..] ensures rank(a[0].kind) < rank(s.kind) {
      var k :| 0 <= k < |a[1..]| && a[1..][k] == s;
      assert a[k + 1] == s;
    }
  }

  /** Rank order leaves no freedom: two rank-ordered section lists with the
      same members are the same list. So a page is pinned down by which
      sections it shows, what each of them holds, and `Ranked`. */
  lemma {:induction false} RankedUnique(a: seq<Section>, b: seq<Section>, rank: SectionKind -> int)
    requires Ranked(a, rank) && Ranked(b, rank)
    requires forall s :: s in a <==> s in b
    ensures a == b
    decreases |a|
  {
    if a != [] {
      RankedTail(a, rank);
    }
    if b != [] {
      RankedTail(b, rank);
    }
    if a != [] && b != [] {
      assert a[0] in b && b[0] in a;
      assert a[0] == b[0];
      RankedUnique(a[1..], b[1..], rank);
      assert a == [a[0]] + a[1..] && b == [b[0]] + b[1..];
    }
  }

  /** Two rank-ordered section lists that show the same kinds, each section
      being the `part` for its kind, are the same list. */
  lemma SectionsDetermined(a: seq<Section>, b: seq<Section>, rank: SectionKind -> int,
                           part: SectionKind -> Option<Section>)
    requires Ranked(a, rank) && Ranked(b, rank)
    requires forall k :: Has(a, k) <==> Has(b, k)
    requires forall s :: s in a ==> part(s.kind) == Some(s)
    requires forall s :: s in b ==> part(s.kind) == Some(s)
    ensures a == b
  {
    forall s ensures s in a <==> s in b {
      HasMember(a, s.kind);
      HasMember(b, s.kind);
      if s in a {
        var t :| t in b && t.kind == s.kind;
        assert part(t.kind) == Some(t);
      }
      if s in b {
        var t :| t in a && t.kind == s.kind;
        assert part(t.kind) == Some(t);
      }
    }
    RankedUnique(a, b, rank);
  }

  /** When `part` maps each slot's kind to that slot's section, it maps
      every emitted section's kind to the section itself. */
  lemma EmitParts(slots: seq<Slot>, part: SectionKind -> Option<Section>)
    requires forall i :: 0 <= i < |slots| ==> part(slots[i].section.kind) == Some(slots[i].section)
    ensures forall s :: s in Emit(slots) ==> part(s.kind) == Some(s)
  {
    EmitOrigin(slots);
  }

  /** The responsibilities rule shared by the Classic, Executive, Creative and
      Software Developer templates: the HTML when it is non-empty, otherwise the
      plain list when that is non-empty, otherwise nothing. */
  function SelectResponsibilities(job: Experience): (b: ResponsibilityBlock)
    ensures b.Rich? <==> Truthy(job.responsibilitiesHtml)
    ensures b.Rich? ==> b.html == job.responsibilitiesHtml.value
    ensures b.Plain? <==> !Truthy(job.responsibilitiesHtml) && |job.responsibilities| > 0
    ensures b.Plain? ==> b.items == job.responsibilities
    ensures b.NoList? <==> !Truthy(job.responsibilitiesHtml) && job.responsibilities == []
  {
    if Truthy(job.responsibilitiesHtml) then Rich(job.responsibilitiesHtml.value)
    else if |job.responsibilities| > 0 then Plain(job.responsibilities)
    else NoList
  }

  function JobEntry(job: Experience): Entry {
    Job(job.title, job.company, job.startDate, job.endDate, SelectResponsibilities(job))
  }

  /** "{degree} in {field}", then school and year. */
  function SchoolEntry(e: Education): Entry {
    School(e.degree, Some(e.field), e.school, e.year)
  }

  /** A project's URL is shown only when it is present and non-empty. */
  function ProjectEntry(p: Project): (e: Entry)
    ensures e.ProjectCard? && e.name == p.name && e.description == p.description
    ensures e.link.Some? <==> Truthy(p.url)
    ensures e.link.Some? ==> e.link == p.url
  {
    ProjectCard(p.name, if Truthy(p.url) then p.url else None, p.description)
  }

  /** One entry per job, each following the responsibilities rule. */
  function Jobs(xs: seq<Experience>): seq<Entry> {
    if xs == [] then [] else [JobEntry(xs[0])] + Jobs(xs[1..])
  }

  /** One entry per school, each naming the field of study. */
  function Schools(xs: seq<Education>): seq<Entry> {
    if xs == [] then [] else [SchoolEntry(xs[0])] + Schools(xs[1..])
  }

  /** One paragraph per string (skills, achievements). */
  function Paragraphs(xs: seq<string>): seq<Entry> {
    if xs == [] then [] else [Paragraph(xs[0])] + Paragraphs(xs[1..])
  }

  /** One card per project. */
  function ProjectCards(xs: seq<Project>): seq<Entry> {
    if xs == [] then [] else [ProjectEntry(xs[0])] + ProjectCards(xs[1..])
  }

  /** One line per language: its name and its proficiency. */
  function LanguageLines(xs: seq<Language>): seq<Entry> {
    if xs == [] then [] else [LanguageLine(xs[0].name, xs[0].proficiency)] + LanguageLines(xs[1..])
  }

  /** One card per reference. */
  function ReferenceCards(xs: seq<Reference>): seq<Entry> {
    if xs == [] then [] else [ReferenceCard(xs[0])] + ReferenceCards(xs[1..])
  }

  lemma {:induction false} JobsPointwise(xs: seq<Experience>)
    ensures |Jobs(xs)| == |xs|
    ensures forall i :: 0 <= i < |xs| ==> Jobs(xs)[i] == JobEntry(xs[i])
  {
    if xs != [] {
      JobsPointwise(xs[1..]);
    }
  }

  lemma {:induction false} SchoolsPointwise(xs: seq<Education>)
    ensures |Schools(xs)| == |xs|
    ensures forall i :: 0 <= i < |xs| ==> Schools(xs)[i] == SchoolEntry(xs[i])
  {
    if xs != [] {
      SchoolsPointwise(xs[1..]);
    }
  }

  lemma {:induction false} ParagraphsPointwise(xs: seq<string>)
    ensures |Paragraphs(xs)| == |xs|
    ensures forall i :: 0 <= i < |xs| ==> Paragraphs(xs)[i] == Paragraph(xs[i])
  {
    if xs != [] {
      ParagraphsPointwise(xs[1..]);
    }
  }

  lemma {:induction false} ProjectCardsPointwise(xs: seq<Project>)
    ensures |ProjectCards(xs)| == |xs|
    ensures forall i :: 0 <= i < |xs| ==> ProjectCards(xs)[i] == ProjectEntry(xs[i])
  {
    if xs != [] {
      ProjectCardsPointwise(xs[1..]);
    }
  }

  lemma {:induction false} LanguageLinesPointwise(xs: seq<Language>)
    ensures |LanguageLines(xs)| == |xs|
    ensures forall i :: 0 <= i < |xs| ==> LanguageLines(xs)[i] == LanguageLine(xs[i].name, xs[i].proficiency)
  {
    if xs != [] {
      LanguageLinesPointwise(xs[1..]);
    }
  }

  lemma {:induction false} ReferenceCardsPointwise(xs: seq<Reference>)
    ensures |ReferenceCards(xs)| == |xs|
    ensures forall i :: 0 <= i < |xs| ==> ReferenceCards(xs)[i] == ReferenceCard(xs[i])
  {
    if xs != [] {
      ReferenceCardsPointwise(xs[1..]);
    }
  }
}
