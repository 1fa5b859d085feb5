# resume-front in Dafny

This project models the client-side logic of a resume builder written in React. It covers:

- the resume data model and the registry of five resume templates;
- how each template (Classic, Modern, Executive, Creative, Software Developer) decides what to show;
- the Software Developer template's fallback to sample data;
- the create-resume page, which selects a template and a font, maps the template to its backend id and builds the save request;
- the resume form's collapsible, drag-to-reorder sections;
- the bullet-point editor;
- client-side and server-side error handling on the registration page;
- the dashboard's premium gate, its template filters and document deletion.

A rendered template is abstracted into a `Rendering.Page`. A page holds:

- the font;
- the header items;
- the sections in document order. Each section has a kind, a heading and entries.

Styles and markup are not modelled. What the model keeps is the decisions: which items and sections appear, in which order, and built from which data. For each template:

- a predicate `Visible` states which sections appear and when;
- `Rank` gives the order in which the source writes the sections;
- `PartOf` gives the section built for each kind: its heading and its entries.

Each `Render` is proved to show exactly the visible sections, in `Rank` order, each equal to its `PartOf`. `RenderDetermined` shows that these three facts fix the section list completely.

The create page's form data is a JavaScript object. The form writes flat string keys into it (`full_name`, `email`, `education`, …). `CreateResume.TemplateData` states what the templates then see: the typed contact keys never reach the preview, and a string written over `education` or `skills` makes the templates throw.

State that the source keeps in React hooks and updates through setters is modelled as classes whose methods update fields:

- `CreateResume.CreatePage`
- `ResumeForm.FormState`
- `BulletPoints.BulletPointInput`
- `Register.RegisterPage`
- `Dashboard.DashboardPage`

Each method's postcondition states the whole new state. Values the program obtains from I/O are method parameters:

- the token in local storage;
- the URL query parameter;
- the server's answer;
- the user's answer to a confirmation dialog.

JavaScript truthiness of an optional string is `ResumeTypes.Truthy`: the value is present and non-empty.

## Model

| member | source | states |
|---|---|---|
| ResumeTypes.ParseProficiency | app/lib/types.ts:34 | The value set of the union type: a string is a proficiency exactly when it is one of the five names, and then it is that level's name. The application never parses one at run time. |
| ResumeTypes.ProficiencyRoundTrip | app/lib/types.ts:34 | Printing a proficiency and parsing it back gives the same level; distinct levels have distinct names. |
| Text.Trim | components/BulletPointInput.tsx:19 | `trim()`: the result is empty exactly when the input is blank. Otherwise it has no white space at either end, and it occurs in the input right after the leading white space. It ends where the trailing white space begins: every character after it is white space. |
| Text.TrimIdempotent | components/BulletPointInput.tsx:19-20 | Trimming an already trimmed string changes nothing. |
| Text.ToLower | app/components/resume-templates/ExecutiveTemplate.tsx:245 | `toLowerCase()` keeps the length and lowers each character in place. |
| Text.ToUpper | app/components/resume-templates/CreativeTemplate.tsx:287 | `toUpperCase()` keeps the length and raises each character in place. |
| Text.FirstChar | app/components/resume-templates/CreativeTemplate.tsx:287 | `charAt(0)` is the first character, or "" for the empty string. |
| Text.ContainsIsInfix | app/components/resume-templates/ExecutiveTemplate.tsx:246-252 | `includes(needle)` holds exactly when the needle occurs at some index of the string. |
| Seqs.Filter | app/dashboard/page.tsx:134 | `filter(p)` keeps exactly the elements satisfying `p`, as a subsequence of the input. |
| Seqs.FilterAppend | app/dashboard/page.tsx:134 | Filtering distributes over concatenation. |
| Seqs.FilterAgree | app/dashboard/page.tsx:277 | Two predicates that agree on every element filter alike. |
| Seqs.FilterKeepsAll | app/dashboard/page.tsx:134 | Filtering a list whose every element passes returns the list unchanged. |
| Seqs.FilterSplit | app/dashboard/page.tsx:277 | A filter and its negation together keep every element exactly once. |
| Seqs.RemoveAt | components/BulletPointInput.tsx:28 | `splice(i, 1)`: one element shorter, with the elements after `i` shifted down and the same multiset minus the removed element. |
| Seqs.InsertAt | components/ResumeForm.tsx:52 | `splice(i, 0, x)`: `x` lands at `i`, with the elements after it shifted up. |
| Seqs.RemoveInsertedAt | components/ResumeForm.tsx:51-52 | Removing an element just inserted at `i` gives the list back. |
| Rendering.HasAppend | app/components/resume-templates/ClassicTemplate.tsx:137-250 | A section is on a concatenated page exactly when it is on one of the parts. |
| Rendering.ConditionalHeader | app/components/resume-templates/ClassicTemplate.tsx:122-134 | The name always heads the header. The title, email, phone and website each appear exactly when they are non-empty. |
| Rendering.ConditionalHeaderShape | app/components/resume-templates/ClassicTemplate.tsx:122-134 | The header items come in the order name, title, email, phone, website, with one item per non-empty field besides the name and nothing else. |
| Rendering.EmitHas | app/components/resume-templates/ClassicTemplate.tsx:137-250 | A guarded JSX section is rendered exactly when its guard holds. |
| Rendering.EmitOrigin | app/components/resume-templates/ClassicTemplate.tsx:137-250 | Every rendered section is the section of some JSX block whose guard holds. |
| Rendering.EmitRanked | app/components/resume-templates/ClassicTemplate.tsx:137-250 | Blocks written in rank order render their sections in rank order. |
| Rendering.EmitAbove | app/components/resume-templates/ClassicTemplate.tsx:137-250 | Sections rendered from blocks that all rank above a bound rank above it. |
| Rendering.RankedPrepend | app/components/resume-templates/ClassicTemplate.tsx:137-250 | One section ranked below a rank-ordered list, put in front of it, keeps the order. |
| Rendering.RankedTail | app/components/resume-templates/ClassicTemplate.tsx:137-250 | The rest of a rank-ordered list is rank-ordered and ranks above its first section. |
| Rendering.EmitParts | app/components/resume-templates/ClassicTemplate.tsx:137-250 | When every block holds the part for its kind, so does every rendered section. |
| Rendering.HasMember | app/components/resume-templates/ClassicTemplate.tsx:137-250 | A kind is on the page exactly when some section of that kind is. |
| Rendering.RankedUnique | app/components/resume-templates/ClassicTemplate.tsx:137-250 | Two rank-ordered section lists with the same members are equal. |
| Rendering.SectionsDetermined | app/components/resume-templates/ClassicTemplate.tsx:137-250 | Two rank-ordered lists that show the same kinds, each section the part for its kind, are equal. |
| Rendering.EmitAllShown | app/components/resume-templates/SoftwareDeveloperTemplate.tsx:409-550 | When every guard holds, every section is rendered, in order. |
| Rendering.SelectResponsibilities | app/components/resume-templates/ClassicTemplate.tsx:157-189 | Rich HTML exactly when `responsibilitiesHtml` is truthy. Otherwise a bullet list exactly when the list is non-empty, and nothing when it is empty. |
| Rendering.ProjectEntry | app/components/resume-templates/ClassicTemplate.tsx:220-233 | A project's link is shown exactly when its URL is truthy, and it is that URL. |
| Rendering.JobsPointwise | app/components/resume-templates/ClassicTemplate.tsx:148 | One entry per job, in order, each following the responsibilities rule. |
| Rendering.SchoolsPointwise | app/components/resume-templates/ClassicTemplate.tsx:195 | One entry per school, in order. |
| Rendering.ParagraphsPointwise | app/components/resume-templates/ClassicTemplate.tsx:209 | One entry per string, in order. |
| Rendering.ProjectCardsPointwise | app/components/resume-templates/ClassicTemplate.tsx:220 | One card per project, in order. |
| Rendering.LanguageLinesPointwise | app/components/resume-templates/ClassicTemplate.tsx:241 | One line per language, with its name and proficiency. |
| Rendering.ReferenceCardsPointwise | app/components/resume-templates/CreativeTemplate.tsx:505-522 | One card per reference, in order. |
| ClassicTemplate.SlotsVisible | app/components/resume-templates/ClassicTemplate.tsx:137-250 | The six JSX guards render exactly the sections `Visible` names: a non-empty summary and non-empty lists. Achievements and references are never rendered. |
| ClassicTemplate.Render | app/components/resume-templates/ClassicTemplate.tsx:9-253 | The font is the prop, or Georgia by default. The header is conditional. The page shows exactly the visible sections, in source order, each with its heading and entries. |
| ClassicTemplate.SlotsOrdered | app/components/resume-templates/ClassicTemplate.tsx:137-250 | The rendered sections follow the source order: summary, experience, education, skills, projects, languages. |
| ClassicTemplate.SlotsParts | app/components/resume-templates/ClassicTemplate.tsx:137-250 | Every rendered section is the template's part for its kind: its heading and entries built from the resume. |
| ClassicTemplate.RenderDetermined | app/components/resume-templates/ClassicTemplate.tsx:137-250 | The render contract fixes the section list: any list in `Rank` order that shows the same kinds, each section the part for its kind, is the rendered one. |
| ClassicTemplate.PartsEntries | app/components/resume-templates/ClassicTemplate.tsx:137-250 | A section that is the template's part for its kind lists one entry per element of that kind's field. |
| ModernTemplate.PlainJobsPointwise | app/components/resume-templates/ModernTemplate.tsx:49-57 | Every job shows its plain responsibilities list; rich HTML is ignored. |
| ModernTemplate.ShortSchoolsPointwise | app/components/resume-templates/ModernTemplate.tsx:33-39 | Every school shows degree, school and year, without the field. |
| ModernTemplate.SlotsVisible | app/components/resume-templates/ModernTemplate.tsx:25-100 | Skills, education, summary and experience always render. Projects, achievements, languages and references render only when non-empty. |
| ModernTemplate.Render | app/components/resume-templates/ModernTemplate.tsx:8-110 | The font is always Helvetica. The header is name, title, email, phone and website in that order, each shown even when empty. The page shows exactly the visible sections, in source order, each with its heading and entries. |
| ModernTemplate.SlotsOrdered | app/components/resume-templates/ModernTemplate.tsx:25-100 | The rendered sections follow the source order: skills, education, summary, experience, projects, achievements, languages, references. |
| ModernTemplate.SlotsParts | app/components/resume-templates/ModernTemplate.tsx:25-100 | Every rendered section is the template's part for its kind: its heading and entries built from the resume. |
| ModernTemplate.RenderDetermined | app/components/resume-templates/ModernTemplate.tsx:25-100 | The render contract fixes the section list: any list in `Rank` order that shows the same kinds, each section the part for its kind, is the rendered one. |
| ModernTemplate.PartsEntries | app/components/resume-templates/ModernTemplate.tsx:25-100 | A section that is the template's part for its kind lists one entry per element of that kind's field. |
| ExecutiveTemplate.MatchesAnyExists | app/components/resume-templates/ExecutiveTemplate.tsx:246-252 | The `\|\|` chain of `includes` holds exactly when some keyword occurs in the skill. |
| ExecutiveTemplate.BucketAppend | app/components/resume-templates/ExecutiveTemplate.tsx:244-257 | Each category's list grows by concatenation as the skills are walked. |
| ExecutiveTemplate.BucketMembers | app/components/resume-templates/ExecutiveTemplate.tsx:244-257 | A category's list holds exactly the skills of that category. |
| ExecutiveTemplate.BucketsPartition | app/components/resume-templates/ExecutiveTemplate.tsx:237-260 | The three lists partition the skills: as multisets they add up to the input. |
| ExecutiveTemplate.CategorizeSkills | app/components/resume-templates/ExecutiveTemplate.tsx:237-260 | The loop pushes each skill onto the list of its category. |
| ExecutiveTemplate.SkillGroupsUnfold | app/components/resume-templates/ExecutiveTemplate.tsx:382-395 | The groups are the non-empty categories, in the order Technical, Leadership, Other. |
| ExecutiveTemplate.SkillGroupsShape | app/components/resume-templates/ExecutiveTemplate.tsx:378-395 | A group is shown exactly for each non-empty category. There is some group exactly when there are skills. |
| ExecutiveTemplate.CategorizeIgnoresCase | app/components/resume-templates/ExecutiveTemplate.tsx:245 | A skill and its lower-case form fall in the same category. |
| ExecutiveTemplate.CategorizeSpec | app/components/resume-templates/ExecutiveTemplate.tsx:246-256 | The category is Technical when a technical keyword matches. Otherwise it is Leadership when a leadership keyword matches. Otherwise it is Other. |
| ExecutiveTemplate.SlotsVisible | app/components/resume-templates/ExecutiveTemplate.tsx:298-470 | Each of the eight sections renders exactly when its field is non-empty. |
| ExecutiveTemplate.Render | app/components/resume-templates/ExecutiveTemplate.tsx:9-473 | The font is the prop, or Calibri by default. The header is conditional. The page shows exactly the visible sections, in source order, each with its heading and entries. |
| ExecutiveTemplate.SlotsOrdered | app/components/resume-templates/ExecutiveTemplate.tsx:298-470 | The rendered sections follow the source order: summary, experience, education, skills, projects, languages, achievements, references. |
| ExecutiveTemplate.SlotsParts | app/components/resume-templates/ExecutiveTemplate.tsx:298-470 | Every rendered section is the template's part for its kind: its heading and entries built from the resume. |
| ExecutiveTemplate.RenderDetermined | app/components/resume-templates/ExecutiveTemplate.tsx:298-470 | The render contract fixes the section list: any list in `Rank` order that shows the same kinds, each section the part for its kind, is the rendered one. |
| ExecutiveTemplate.PartsEntries | app/components/resume-templates/ExecutiveTemplate.tsx:298-470 | A section that is the template's part for its kind lists one entry per element of that kind's field. |
| CreativeTemplate.Initials | app/components/resume-templates/CreativeTemplate.tsx:284-288 | One upper-cased letter per non-empty name, first name first. |
| CreativeTemplate.SkillLevelEnds | app/components/resume-templates/CreativeTemplate.tsx:291-297 | The first bar is at 70%. With more than one skill, the last one is at 95%. |
| CreativeTemplate.SkillLevelRange | app/components/resume-templates/CreativeTemplate.tsx:291-297 | Levels rise strictly with the index and stay within 70..95. |
| CreativeTemplate.TruncatedBarsStayBelowTop | app/components/resume-templates/CreativeTemplate.tsx:346 | When more than six skills exist, none of the six bars shown reaches 95%. |
| CreativeTemplate.BarsPointwise | app/components/resume-templates/CreativeTemplate.tsx:346-362 | Bar `i` is skill `i` at the level for index `i` of the full total. |
| CreativeTemplate.SkillBarsPointwise | app/components/resume-templates/CreativeTemplate.tsx:346 | At most six bars: the first six skills, scaled to the total number of skills. |
| CreativeTemplate.Header | app/components/resume-templates/CreativeTemplate.tsx:303-336 | Monogram, then name, then the contact heading. The title, email, phone and website each appear exactly when non-empty. |
| CreativeTemplate.HeaderShape | app/components/resume-templates/CreativeTemplate.tsx:303-336 | The items come in the order monogram, name, title, "Contact", email, phone, website, with one item per non-empty field besides the three fixed ones and nothing else. |
| CreativeTemplate.SlotsVisible | app/components/resume-templates/CreativeTemplate.tsx:340-522 | Each of the eight sections renders exactly when its field is non-empty. |
| CreativeTemplate.Render | app/components/resume-templates/CreativeTemplate.tsx:9-528 | The font is the prop, or Inter by default. The header is the Creative header. The page shows exactly the visible sections, in source order, each with its heading and entries. |
| CreativeTemplate.SlotsOrdered | app/components/resume-templates/CreativeTemplate.tsx:340-522 | The rendered sections follow the source order: skills, languages, summary, experience, education, projects, achievements, references. |
| CreativeTemplate.SlotsParts | app/components/resume-templates/CreativeTemplate.tsx:340-522 | Every rendered section is the template's part for its kind: its heading and entries built from the resume. |
| CreativeTemplate.RenderDetermined | app/components/resume-templates/CreativeTemplate.tsx:340-522 | The render contract fixes the section list: any list in `Rank` order that shows the same kinds, each section the part for its kind, is the rendered one. |
| CreativeTemplate.PartsEntries | app/components/resume-templates/CreativeTemplate.tsx:340-522 | A section that is the template's part for its kind lists one entry per element of that kind's field. |
| SoftwareDeveloperTemplate.DefaultDataComplete | app/components/resume-templates/SoftwareDeveloperTemplate.tsx:11-139 | The sample resume has a summary and every list non-empty. |
| SoftwareDeveloperTemplate.Merge | app/components/resume-templates/SoftwareDeveloperTemplate.tsx:142-152 | Merging with complete defaults gives a complete resume. |
| SoftwareDeveloperTemplate.MergeKeepsSupplied | app/components/resume-templates/SoftwareDeveloperTemplate.tsx:142-152 | Personal details, a non-empty summary and every non-empty list are taken from the user's data. |
| SoftwareDeveloperTemplate.MergeFillsGaps | app/components/resume-templates/SoftwareDeveloperTemplate.tsx:144-151 | An empty summary or list is replaced by the default's. |
| SoftwareDeveloperTemplate.MergeFixpoint | app/components/resume-templates/SoftwareDeveloperTemplate.tsx:142-152 | With complete defaults, the merge leaves the data unchanged exactly when the data is complete. The merge is idempotent. |
| SoftwareDeveloperTemplate.SlotsAll | app/components/resume-templates/SoftwareDeveloperTemplate.tsx:409-550 | All eight sections are rendered unconditionally. |
| SoftwareDeveloperTemplate.PartsFilled | app/components/resume-templates/SoftwareDeveloperTemplate.tsx:409-550 | For complete data every one of the eight sections has entries. |
| SoftwareDeveloperTemplate.SlotsFilled | app/components/resume-templates/SoftwareDeveloperTemplate.tsx:409-550 | Exactly eight sections, and for complete data none of them is empty. |
| SoftwareDeveloperTemplate.RenderWith | app/components/resume-templates/SoftwareDeveloperTemplate.tsx:9-556 | The font is the prop, or Inter by default. The full header is shown, and so is every section, in source order, each built from the merged data with its heading and entries. With complete defaults, every section has entries. |
| SoftwareDeveloperTemplate.SlotsOrdered | app/components/resume-templates/SoftwareDeveloperTemplate.tsx:409-550 | The rendered sections follow the source order: skills, languages, summary, experience, education, projects, achievements, references. |
| SoftwareDeveloperTemplate.SlotsParts | app/components/resume-templates/SoftwareDeveloperTemplate.tsx:409-550 | Every rendered section is the template's part for its kind: its heading and entries built from the merged data. |
| SoftwareDeveloperTemplate.RenderDetermined | app/components/resume-templates/SoftwareDeveloperTemplate.tsx:409-550 | The render contract fixes the section list: any list in `Rank` order that shows the same kinds, each section the part for its kind, is the rendered one. |
| SoftwareDeveloperTemplate.PartsEntries | app/components/resume-templates/SoftwareDeveloperTemplate.tsx:409-550 | A section that is the template's part for its kind lists one entry per element of that kind's field. |
| TemplateRegistry.Find | app/lib/templates.ts:44 | `find`: the first entry with the id, and none exactly when no entry has it. |
| TemplateRegistry.GetTemplateById | app/lib/templates.ts:43-45 | A found template is in the registry and has the requested id. |
| TemplateRegistry.RegistryShape | app/lib/templates.ts:15-41 | Five templates, in the order classic, modern, executive, creative, software-developer, with distinct ids. |
| TemplateRegistry.GetTemplateByIdSpec | app/lib/templates.ts:43-45 | Lookup succeeds exactly for the five registered ids, and returns that entry. |
| CreateResume.GetBackendTemplateId | app/dashboard/resumes/create/page.tsx:99-108 | Always in 1..5. Registered id `i` maps to `i + 1`, and every other id maps to 1. |
| CreateResume.BackendIdInjective | app/dashboard/resumes/create/page.tsx:100-106 | Distinct registered templates get distinct backend ids. |
| CreateResume.BackendIdAsWrittenDiffers | app/dashboard/resumes/create/page.tsx:107 | The plain-object lookup agrees with the intended mapping except on `Object.prototype` keys. "constructor" yields a function, not 1. |
| CreateResume.TemplateFromUrl | app/dashboard/resumes/create/page.tsx:83-87 | The URL parameter replaces the selection exactly when it is truthy and a registered id. |
| CreateResume.ListStateOf | components/ResumeForm.tsx:19-22 | A list key is untouched exactly when the form never wrote it, and filled exactly when it wrote a non-empty string. |
| CreateResume.TemplateData | app/components/resume-templates/ModernTemplate.tsx:28-33 | A template renders the form data exactly when neither `education` nor `skills` holds a string it cannot map. A non-empty string breaks every template. An empty one breaks the unguarded `.map` here and the Executive `forEach` over skills (ExecutiveTemplate.tsx:244, 262); the other templates skip it behind `length > 0` (ClassicTemplate.tsx:192, 205) or take the sample (SoftwareDeveloperTemplate.tsx:146-147). When it renders, every field of the resume is shown as it is (personal details, summary, experience, projects, achievements, languages, references), with an overwritten list read as empty. |
| CreateResume.EditVisibility | components/ResumeForm.tsx:19-22 | Typing into `full_name`, `email`, `phone`, `location` or `employment` never changes what a template shows. A non-empty value in `education` or `skills` leaves no template able to render. |
| CreateResume.UntypedFormRenders | app/dashboard/resumes/create/page.tsx:55 | Form data nothing has been typed into renders as the resume itself. |
| CreateResume.BuildSaveRequest | app/dashboard/resumes/create/page.tsx:121-132 | Without a token the save fails with the no-token message. Otherwise the body carries the form data with `template` and `fontFamily` set, and the mapped template id: the registered id's position plus one, or 1 for any other id. |
| CreateResume.PreviewComponent | app/dashboard/resumes/create/page.tsx:185-186 | The preview renders exactly for registered ids, with that template's component. |
| CreateResume.CreatePage.constructor | app/dashboard/resumes/create/page.tsx:17-55 | Starts on "classic" and "Georgia, serif", with a blank resume that nothing has been written over, and not saving. |
| CreateResume.CreatePage.ApplyUrlTemplate | app/dashboard/resumes/create/page.tsx:83-87 | The selection becomes `TemplateFromUrl` of the old one; the rest is unchanged. |
| CreateResume.CreatePage.SelectTemplate | app/dashboard/resumes/create/page.tsx:213-214 | Selecting a template changes only the selection. |
| CreateResume.CreatePage.SelectFont | app/dashboard/resumes/create/page.tsx:228-229 | Selecting a font changes only the font. |
| CreateResume.CreatePage.ChangeData | components/ResumeForm.tsx:19-22 | Typing into one of the form's inputs writes that flat key over the form data (passed to `setFormData` at create/page.tsx:253); nothing else changes. |
| CreateResume.CreatePage.HandleFormSubmit | app/dashboard/resumes/create/page.tsx:110-175 | The request is `BuildSaveRequest` of the current selections and of the page's own form data, which the form hands back on submit (ResumeForm.tsx:24-27). Saving ends lowered, and the page keeps its invariant. |
| CreateResume.PreviewAlwaysAvailable | app/dashboard/resumes/create/page.tsx:293 | The page's selection always has a preview. |
| ResumeForm.WithField | components/ResumeForm.tsx:19-22 | `{...formData, [name]: value}` sets that key and keeps every other key. |
| ResumeForm.WithFieldEdits | components/ResumeForm.tsx:19-22 | A later edit of the same key wins. Edits of different keys commute. |
| ResumeForm.Toggled | components/ResumeForm.tsx:29-37 | The section's collapsed flag flips, and no other section changes. |
| ResumeForm.ToggleTwice | components/ResumeForm.tsx:29-37 | Toggling twice restores the set. |
| ResumeForm.IndexOf | components/ResumeForm.tsx:47-48 | `indexOf`: the first occurrence, or -1 exactly when the item is absent. |
| ResumeForm.MoveSpec | components/ResumeForm.tsx:50-52 | The move keeps the length and the multiset. The dragged section lands at the target index, and removing it there gives the order without it. |
| ResumeForm.FormState.constructor | components/ResumeForm.tsx:13-17 | The order starts personal, education, employment, skills; nothing is collapsed or dragged. |
| ResumeForm.FormState.ToggleSection | components/ResumeForm.tsx:29-37 | Collapsed sections become `Toggled` of the old set. |
| ResumeForm.FormState.DragStart | components/ResumeForm.tsx:39-42 | Records the dragged section. |
| ResumeForm.FormState.DragOver | components/ResumeForm.tsx:44-56 | Dragging over another section moves the dragged one to its index. Otherwise nothing changes. The order stays a permutation of the sections. |
| ResumeForm.FormState.DragEnd | components/ResumeForm.tsx:58-60 | Clears the dragged section. |
| BulletPoints.BulletPointInput.constructor | components/BulletPointInput.tsx:16 | Starts with the given points and an empty draft. |
| BulletPoints.BulletPointInput.SetDraft | components/BulletPointInput.tsx:16 | Typing changes only the draft. |
| BulletPoints.BulletPointInput.AddPoint | components/BulletPointInput.tsx:18-24 | A non-blank draft is trimmed and appended, and the draft is cleared. A blank draft changes nothing. |
| BulletPoints.BulletPointInput.RemovePoint | components/BulletPointInput.tsx:26-30 | The list becomes the old list without the element at the index. |
| BulletPoints.BulletPointInput.UpdatePoint | components/BulletPointInput.tsx:32-36 | Only the element at the index changes, to the new value. |
| BulletPoints.BulletPointInput.HandleKeyDown | components/BulletPointInput.tsx:38-43 | Enter adds the draft as `AddPoint` does; other keys change nothing. |
| BulletPoints.AddedPointIsTrimmed | components/BulletPointInput.tsx:19-20 | An added point is non-empty, has no surrounding white space, and is stable under trimming again. |
| Register.Set | app/register/page.tsx:35-38 | Sets exactly the edited field. |
| Register.EmailPatternInContext | app/register/page.tsx:57 | The unanchored pattern still matches with text around a match. |
| Register.EmailPatternExamples | app/register/page.tsx:57 | "a@b.c" matches; "a@b", "@b.c" and "a@.c" do not. |
| Register.ValidateForm | app/register/page.tsx:48-75 | Each field gets exactly its message, and only field keys appear. The form is valid exactly when there are no errors. |
| Register.ValidIff | app/register/page.tsx:48-75 | Valid means: name and email not blank, the email matches the pattern, the password has at least 8 characters, and the confirmation equals it. |
| Register.ClearedError | app/register/page.tsx:40-45 | Editing a field blanks only that field's error and keeps every key. |
| Register.FirstMessagesSingletons | app/register/page.tsx:127-132 | Flattening one-message lists gives the messages back. |
| Register.FlattenServerErrors | app/register/page.tsx:127-132 | The loop maps every key of the server's errors to its first message. |
| Register.ErrorsAfterResponse | app/register/page.tsx:104-140 | Success with a token clears the errors. Success without one gives the no-token message under "general". A rejection with field errors gives their keys, each with its first message. A rejection without them gives the server's message, or "Registration failed", under "general". A network failure gives the network message. |
| Register.NoErrorsShown | app/register/page.tsx:104-140 | No error remains exactly after a success with a token, or a rejection whose `errors` object is empty. |
| Register.RegisterPage.constructor | app/register/page.tsx:22-30 | Starts with an empty form, no errors, not loading, not succeeded. |
| Register.RegisterPage.HandleInputChange | app/register/page.tsx:33-46 | Stores the value and clears only that field's error. |
| Register.RegisterPage.HandleSubmit | app/register/page.tsx:77-143 | An invalid form shows its validation errors and sends nothing. A valid one shows exactly `ErrorsAfterResponse` of the answer, and success follows acceptance. Loading ends lowered. |
| Dashboard.WithDefaultSubscription | app/dashboard/page.tsx:32-36 | A missing or empty subscription becomes "free", a present one is kept, and the result is never empty. |
| Dashboard.DefaultSubscriptionStable | app/dashboard/page.tsx:32-36 | Defaulting a user who already has a plan changes nothing. |
| Dashboard.CanUse | app/dashboard/page.tsx:279 | A card opens exactly when the template is free or the plan is "premium" (the same rule is at line 319). |
| Dashboard.TemplatesOfType | app/dashboard/page.tsx:277 | The grid holds exactly the catalog entries of that type, in catalog order (the same filter is at line 317). |
| Dashboard.GridsPartitionCatalog | app/dashboard/page.tsx:277 | With only resume and cover-letter entries, the two grids together list every template once (the cover-letter filter is at line 317). |
| Dashboard.UsableCardsByPlan | app/dashboard/page.tsx:277-279 | On the premium plan every card of a grid opens. On any other plan exactly the grid's free cards open, in order. |
| Dashboard.PremiumOpensCatalog | app/dashboard/page.tsx:277-319 | On the premium plan the two grids of a resume and cover-letter catalog together open every template in it. |
| Dashboard.DecimalRoundTrip | app/dashboard/page.tsx:122 | The id printed into the endpoint reads back as the id. |
| Dashboard.EndpointInjective | app/dashboard/page.tsx:122 | The endpoint determines the document type and the id. |
| Dashboard.WithoutId | app/dashboard/page.tsx:133-137 | Deleting keeps exactly the documents with other ids, in order. |
| Dashboard.WithoutIdIdempotent | app/dashboard/page.tsx:133-137 | Deleting the same id twice, or an absent id, changes nothing further. |
| Dashboard.DeletedIdIsGone | app/dashboard/page.tsx:133-137 | A document remains exactly when it was listed and has another id. |
| Dashboard.DashboardPage.constructor | app/dashboard/page.tsx:15-23 | Starts without a user, with empty lists, and loading. |
| Dashboard.DashboardPage.CheckAuth | app/dashboard/page.tsx:25-51 | A stored user with a token becomes the user, with the default plan applied. Loading ends. |
| Dashboard.DashboardPage.DocumentsLoaded | app/dashboard/page.tsx:97-100 | The fetched lists replace the page's lists. |
| Dashboard.DashboardPage.HandleDelete | app/dashboard/page.tsx:117-142 | Declined: nothing is sent or changed. Confirmed: the endpoint is the type's. Unless the request throws, the type's list loses that id and the other list is untouched. |

## Left out

- Network requests, local storage, tokens in headers, router navigation, `console` output and alert or confirm dialogs are not modelled. Their results enter as parameters: a token, the URL parameter, a `Register.Response`, and whether the request threw or the user confirmed.
- Asynchronous ordering (`await`, `Promise.all`, the `finally` flags) is not modelled. Each handler is one atomic step whose loading flag ends lowered.
- Styles, colours, sizes, grid layout and markup are not modelled, because they are visual only.
- HTML in `responsibilitiesHtml` is an opaque string that is injected unchanged. No sanitising or parsing is modelled.
- `Text` covers ASCII only. White space is the six ASCII spaces, case mapping is A-Z/a-z only, and lengths count UTF-16 code units as characters. Unicode white space and non-ASCII case mapping are not modelled.
- `CreativeTemplate.SkillLevel` is computed over exact reals. Floating-point rounding and the `%` string are not modelled.
- `SoftwareDeveloperTemplate.Render`, `TemplateRegistry.RenderComponent` and `CreateResume.Preview` are dispatch wrappers without contracts. Their content is stated by `SoftwareDeveloperTemplate.RenderWith`, `CreateResume.PreviewComponent` and `CreateResume.TemplateData`. The sample resume's long texts are concatenations of short string literals; the strings are equal to the original's.
- `Register.FirstMessage`: an empty server list gives `undefined` in the source, and the model gives "". Both are falsy, and only their truthiness is used.
- `Register.ValidateForm`: the e-mail test is the regular expression `\S+@\S+\.\S+` over ASCII white space, stated as `EmailPattern`. Regular-expression matching in general is not modelled.
- `ResumeForm.FormState.DragOver`: the target section is required to be in the order, because drag events only come from rendered sections. For a target outside the order, the source's `indexOf` gives -1 and `splice(-1, 0, x)` inserts before the last element; that case is not modelled.
- `BulletPoints.BulletPointInput.RemovePoint` and `BulletPoints.BulletPointInput.UpdatePoint` require a valid index, because the source only calls them from rendered rows.
- `CreateResume.CreatePage.SelectTemplate` and `CreateResume.CreatePage.SelectFont` require a listed template or font, because the values come from the rendered options.
- `Dashboard.DashboardPage.HandleDelete`: the confirmation text is not modelled. Ids are natural numbers. The filter reads the lists as they are when the handler starts; a concurrent update is not modelled.
- `Dashboard.DashboardPage.CheckAuth`: a stored user that does not parse is treated as missing, because the difference lies only in storage clean-up and navigation.
- `CreateResume.TemplateData`: when rendering throws, the model gives `None`. What React then shows (an error overlay or a blank panel) is not modelled. The form inputs' displayed values (`formData.education || ''` shows the resume's list as text) are not modelled either.
- The other dashboard pages, the editor, the live preview, the viewers and the cover-letter components are not part of this model. Their logic repeats the premium gate, the delete filter, the subscription default and the field update modelled here.

## Findings

| source | as written | input that shows it | evidently intended | confidence | as-written member | corrected member |
|---|---|---|---|---|---|---|
| app/dashboard/resumes/create/page.tsx:107 | `templateMapping[frontendTemplateId] \|\| 1` looks the id up on a plain object, so `Object.prototype` keys are found too | frontend id "constructor" returns the `Object` function instead of 1; the page only holds registered ids, so this is reachable only by a direct call | any id outside the mapping gives 1 | not executed | CreateResume.BackendIdAsWrittenDiffers | CreateResume.GetBackendTemplateId |
