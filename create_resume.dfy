/** CreateResume: the resume-creation page. It starts from an empty resume,
    lets the user pick a template and a font, previews the chosen template,
    and builds the request that saves the resume under the backend's integer
    template id. */
module CreateResume {
  import opened ResumeTypes
  import opened Rendering
  import opened TemplateRegistry
  import ResumeForm

  /** The empty resume the form starts from. */
  const InitialData := ResumeData(PersonalDetails("", "", "", "", "", ""), "", [], [], [], [], [], [], [])

  const DefaultTemplate := "classic"
  const DefaultFont := "Georgia, serif"

  /** The values of the font picker, in the order it lists them. */
  const FontOptions: seq<string> := [
    "Georgia, serif", "Times New Roman, serif", "Arial, sans-serif", "Helvetica, sans-serif",
    "Inter, sans-serif", "Poppins, sans-serif", "Calibri, sans-serif", "Open Sans, sans-serif",
    "Roboto, sans-serif"]

  /** The initial resume has no content: every text empty, every list empty. */
  predicate Blank(d: ResumeData) {
    d.personal == PersonalDetails("", "", "", "", "", "") && d.summary == ""
    && d.experience == [] && d.education == [] && d.skills == [] && d.projects == []
    && d.achievements == [] && d.languages == [] && d.references == []
  }

  /** The mapping's own keys: each registered template id and its backend id. */
  function MappedId(frontendId: string): Option<int> {
    if frontendId == "classic" then Some(1)
    else if frontendId == "modern" then Some(2)
    else if frontendId == "executive" then Some(3)
    else if frontendId == "creative" then Some(4)
    else if frontendId == "software-developer" then Some(5)
    else None
  }

  /** `getBackendTemplateId`: registered ids map to 1..5 in registry order;
      any other id falls back to 1. */
  function GetBackendTemplateId(frontendId: string): (n: int)
    ensures 1 <= n <= 5
    ensures forall i :: 0 <= i < |Ids| && Ids[i] == frontendId ==> n == i + 1
    ensures frontendId !in Ids ==> n == 1
  {
    match MappedId(frontendId)
    case Some(n) => n
    case None => 1
  }

  /** Two registered ids never share a backend id. */
  lemma BackendIdInjective(a: string, b: string)
    requires a in Ids && b in Ids
    requires GetBackendTemplateId(a) == GetBackendTemplateId(b)
    ensures a == b
  {
    var i :| 0 <= i < |Ids| && Ids[i] == a;
    var j :| 0 <= j < |Ids| && Ids[j] == b;
    assert i + 1 == j + 1;
  }

  // What `templateMapping[id] || 1` does in JavaScript, where a plain object
  // literal also answers for the keys it inherits from `Object.prototype`.

  /** A value read from the mapping object. */
  datatype JsValue = Number(n: int) | Inherited(key: string) | Undefined

  /** The names every plain object inherits from `Object.prototype`. */
  const ObjectPrototypeKeys: seq<string> := [
    "constructor", "hasOwnProperty", "isPrototypeOf", "propertyIsEnumerable", "toLocaleString",
    "toString", "valueOf", "__proto__", "__defineGetter__", "__defineSetter__",
    "__lookupGetter__", "__lookupSetter__"]

  /** `templateMapping[key]`: an own entry, else an inherited member, else undefined. */
  function MappingLookup(key: string): JsValue {
    match MappedId(key)
    case Some(n) => Number(n)
    case None => if key in ObjectPrototypeKeys then Inherited(key) else Undefined
  }

  predicate JsTruthy(v: JsValue) {
    match v
    case Number(n) => n != 0
    case Inherited(_) => true
    case Undefined => false
  }

  /** The function as written: the looked-up value when it is truthy, else 1. */
  function BackendTemplateIdAsWritten(frontendId: string): JsValue {
    var v := MappingLookup(frontendId);
    if JsTruthy(v) then v else Number(1)
  }

  /** For every id that is not an inherited member's name the code as written
      agrees with `GetBackendTemplateId`; for "constructor" it returns the
      `Object` constructor, not a number. */
  lemma BackendIdAsWrittenDiffers(frontendId: string)
    ensures frontendId !in ObjectPrototypeKeys ==>
      BackendTemplateIdAsWritten(frontendId) == Number(GetBackendTemplateId(frontendId))
    ensures BackendTemplateIdAsWritten("constructor") == Inherited("constructor")
  {
    assert "constructor" == ObjectPrototypeKeys[0];
  }

  /** The template the page shows after reading the URL: the `template`
      parameter when it is non-empty and names a registered template,
      otherwise the current selection. */
  function TemplateFromUrl(current: string, param: Option<string>): (r: string)
    ensures Truthy(param) && param.value in Ids ==> r == param.value
    ensures !(Truthy(param) && param.value in Ids) ==> r == current
  {
    if Truthy(param) then
      GetTemplateByIdSpec(param.value);
      if GetTemplateById(param.value).Some? then param.value else current
    else current
  }

  /** The page's `formData` as a JavaScript object: the resume it started as,
      plus the flat string keys the form has written over it. The form's
      inputs write `{...formData, [name]: value}`, so a key such as `email`
      lands beside the resume's fields, and `education` or `skills` replaces
      the resume's list of that name with a string. */
  datatype FormObject = FormObject(resume: ResumeData, written: map<string, string>)

  /** The `name`s of the form's inputs. */
  const FormFields: seq<string> := ["full_name", "email", "phone", "location", "education", "employment", "skills"]

  /** The form fields that share their name with a list of the resume. */
  const ListFields: set<string> := {"education", "skills"}

  /** The form data after typing `value` into input `name`. */
  function Edit(f: FormObject, name: string, value: string): FormObject {
    FormObject(f.resume, ResumeForm.WithField(f.written, name, value))
  }

  /** What a list field holds once the form may have written over it. */
  datatype ListState = Untouched | Emptied | Filled

  function ListStateOf(f: FormObject, key: string): (r: ListState)
    ensures r == Untouched <==> key !in f.written
    ensures r == Filled <==> key in f.written && f.written[key] != ""
  {
    if key !in f.written then Untouched
    else if f.written[key] == "" then Emptied
    else Filled
  }

  /** Whether the template with id `template` renders with list `key` in
      state `st`. A non-empty string passes every `length > 0` guard and then
      has no `.map` (nor `.forEach`), so every template throws. An empty
      string is skipped by those guards, and the Software Developer template
      replaces it with its sample, but the Modern template maps both lists
      unguarded and the Executive template runs `forEach` over the skills
      before any guard. */
  predicate Survives(template: string, key: string, st: ListState) {
    match st
    case Untouched => true
    case Filled => false
    case Emptied => !(template == "modern" || (template == "executive" && key == "skills"))
  }

  /** The list a template sees under `key`: the resume's own, or none once an
      empty string has replaced it. */
  function ListSeen<T>(f: FormObject, key: string, own: seq<T>): seq<T> {
    if key in f.written then [] else own
  }

  /** The resume the template with id `template` renders for `f`, or `None`
      when rendering throws. Only the resume's own fields are read, so the
      other keys the form writes (`full_name`, `email`, `phone`, `location`,
      `employment`) never reach the page. */
  function TemplateData(template: string, f: FormObject): (r: Option<ResumeData>)
    ensures r.Some? <==> Survives(template, "education", ListStateOf(f, "education")) &&
                         Survives(template, "skills", ListStateOf(f, "skills"))
    ensures r.Some? ==> r.value.personal == f.resume.personal && r.value.summary == f.resume.summary
    ensures r.Some? ==> r.value.experience == f.resume.experience && r.value.projects == f.resume.projects
    ensures r.Some? ==> r.value.achievements == f.resume.achievements && r.value.languages == f.resume.languages &&
                        r.value.references == f.resume.references
    ensures r.Some? && "education" !in f.written ==> r.value.education == f.resume.education
    ensures r.Some? && "skills" !in f.written ==> r.value.skills == f.resume.skills
    ensures r.Some? && "education" in f.written ==> r.value.education == []
    ensures r.Some? && "skills" in f.written ==> r.value.skills == []
  {
    if Survives(template, "education", ListStateOf(f, "education")) &&
       Survives(template, "skills", ListStateOf(f, "skills"))
    then Some(f.resume.(education := ListSeen(f, "education", f.resume.education),
                        skills := ListSeen(f, "skills", f.resume.skills)))
    else None
  }

  /** Typing into the form never changes what a template shows, except that
      a non-empty value in `education` or `skills` breaks every template. */
  lemma EditVisibility(template: string, f: FormObject, name: string, value: string)
    requires name in FormFields
    ensures name !in ListFields ==> TemplateData(template, Edit(f, name, value)) == TemplateData(template, f)
    ensures name in ListFields && value != "" ==> TemplateData(template, Edit(f, name, value)).None?
  {
    var g := Edit(f, name, value);
    if name !in ListFields {
      assert ListStateOf(g, "education") == ListStateOf(f, "education");
      assert ListStateOf(g, "skills") == ListStateOf(f, "skills");
      assert ("education" in g.written) == ("education" in f.written);
      assert ("skills" in g.written) == ("skills" in f.written);
    } else if value != "" {
      assert ListStateOf(g, name) == Filled;
    }
  }

  /** A form nothing has been typed into renders the resume itself. */
  lemma UntypedFormRenders(template: string, resume: ResumeData)
    ensures TemplateData(template, FormObject(resume, map[])) == Some(resume)
  {
  }

  /** The resume as saved: the form data plus the chosen template and font. */
  datatype SavedDocument = SavedDocument(form: FormObject, template: string, fontFamily: string)

  /** The body of the POST that saves a resume. */
  datatype SaveRequest = SaveRequest(templateId: int, data: SavedDocument)

  datatype Result<T> = Ok(value: T) | Failure(message: string)

  const NoTokenMessage := "No authentication token found. Please log in again."

  /** The save request, built only when a token is present; without one the
      save fails before any request is made. The template id sent is the
      backend id of the template named in the saved data. */
  function BuildSaveRequest(template: string, font: string, data: FormObject, token: Option<string>): (r: Result<SaveRequest>)
    ensures r.Failure? <==> !Truthy(token)
    ensures r.Failure? ==> r.message == NoTokenMessage
    ensures r.Ok? ==> r.value.data == SavedDocument(data, template, font)
    ensures r.Ok? ==> 1 <= r.value.templateId <= 5
    ensures r.Ok? && template in Ids ==> Ids[r.value.templateId - 1] == template
    ensures r.Ok? && template !in Ids ==> r.value.templateId == 1
  {
    if !Truthy(token) then Failure(NoTokenMessage)
    else Ok(SaveRequest(GetBackendTemplateId(template), SavedDocument(data, template, font)))
  }

  /** The component the live preview uses: the selected template's, or
      nothing when no template has that id. */
  function PreviewComponent(template: string): (r: Option<Component>)
    ensures r.Some? <==> template in Ids
    ensures r.Some? ==> exists i :: 0 <= i < |Templates| && Templates[i].id == template && Templates[i].component == r.value
  {
    GetTemplateByIdSpec(template);
    match GetTemplateById(template)
    case Some(t) => Some(t.component)
    case None => None
  }

  /** The live preview: that component over the form data with the selected
      font, or nothing when there is no component or rendering throws. */
  function Preview(template: string, font: string, f: FormObject): Option<Page> {
    match (PreviewComponent(template), TemplateData(template, f))
    case (Some(c), Some(data)) => Some(RenderComponent(c, data, Some(font)))
    case _ => None
  }

  /** The page's state: the selections, the form data and the saving flag. */
  class CreatePage {
    var selectedTemplate: string
    var selectedFont: string
    var formData: FormObject
    var isSaving: bool

    /** Both selections name entries of their pickers, so a preview always exists. */
    predicate Valid()
      reads this
    {
      selectedTemplate in Ids && selectedFont in FontOptions
    }

    constructor()
      ensures Valid()
      ensures selectedTemplate == "classic" && selectedFont == "Georgia, serif"
      ensures formData == FormObject(InitialData, map[]) && Blank(formData.resume) && !isSaving
    {
      selectedTemplate := DefaultTemplate;
      selectedFont := DefaultFont;
      formData := FormObject(InitialData, map[]);
      isSaving := false;
    }

    /** On load, a registered `template` URL parameter replaces the selection. */
    method ApplyUrlTemplate(param: Option<string>)
      requires Valid()
      modifies this
      ensures Valid()
      ensures selectedTemplate == TemplateFromUrl(old(selectedTemplate), param)
      ensures selectedFont == old(selectedFont) && formData == old(formData) && isSaving == old(isSaving)
    {
      if Truthy(param) && GetTemplateById(param.value).Some? {
        selectedTemplate := param.value;
      }
      GetTemplateByIdSpec(selectedTemplate);
    }

    /** The template picker offers exactly the registered ids. */
    method SelectTemplate(id: string)
      requires Valid() && id in Ids
      modifies this
      ensures Valid()
      ensures selectedTemplate == id
      ensures selectedFont == old(selectedFont) && formData == old(formData) && isSaving == old(isSaving)
    {
      selectedTemplate := id;
    }

    /** The font picker offers exactly `FontOptions`. */
    method SelectFont(font: string)
      requires Valid() && font in FontOptions
      modifies this
      ensures Valid()
      ensures selectedFont == font
      ensures selectedTemplate == old(selectedTemplate) && formData == old(formData) && isSaving == old(isSaving)
    {
      selectedFont := font;
    }

    /** `handleInputChange` passed to `setFormData`: typing `value` into
      input `name` writes that key over the form data. */
    method ChangeData(name: string, value: string)
      requires Valid() && name in FormFields
      modifies this
      ensures Valid()
      ensures formData == Edit(old(formData), name, value)
      ensures selectedTemplate == old(selectedTemplate) && selectedFont == old(selectedFont) && isSaving == old(isSaving)
    {
      formData := FormObject(formData.resume, formData.written[name := value]);
    }

    /** `handleFormSubmit` on the form data the form hands back, up to the
      network call: the request it would send (or why it sends none). The
      saving flag is raised for the duration and lowered again whatever the
      outcome. */
    method HandleFormSubmit(token: Option<string>) returns (r: Result<SaveRequest>)
      requires Valid()
      modifies this
      ensures Valid()
      ensures r == BuildSaveRequest(selectedTemplate, selectedFont, formData, token)
      ensures !isSaving
      ensures selectedTemplate == old(selectedTemplate) && selectedFont == old(selectedFont) && formData == old(formData)
    {
      isSaving := true;
      r := BuildSaveRequest(selectedTemplate, selectedFont, formData, token);
      isSaving := false;
    }
  }

  /** The preview of a valid page always finds its template. */
  lemma PreviewAlwaysAvailable(page: CreatePage)
    requires page.Valid()
    ensures PreviewComponent(page.selectedTemplate).Some?
  {
  }
}
