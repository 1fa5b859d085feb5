/** Dashboard: the signed-in user's home page. It gives a stored user
    without a subscription the free plan, lists the catalog's resume and
    cover-letter templates with a premium gate, and deletes a document from
    the list of its type. */
module Dashboard {
  import opened ResumeTypes
  import opened Seqs

  const FreePlan := "free"
  const PremiumPlan := "premium"

  /** The user record as parsed from local storage; `subscription` may be
      missing or empty. */
  datatype StoredUser = StoredUser(id: int, name: string, email: string, subscription: Option<string>)

  /** The user record the page keeps in its state. */
  datatype User = User(id: int, name: string, email: string, subscription: string)

  /** A falsy subscription becomes "free"; a present one is kept as it is. */
  function WithDefaultSubscription(stored: StoredUser): (u: User)
    ensures u.id == stored.id && u.name == stored.name && u.email == stored.email
    ensures u.subscription != ""
    ensures Truthy(stored.subscription) ==> u.subscription == stored.subscription.value
    ensures !Truthy(stored.subscription) ==> u.subscription == FreePlan
  {
    User(stored.id, stored.name, stored.email,
         if Truthy(stored.subscription) then stored.subscription.value else FreePlan)
  }

  /** Storing the page's user back and reading it again changes nothing. */
  lemma DefaultSubscriptionStable(stored: StoredUser)
    ensures var u := WithDefaultSubscription(stored);
      WithDefaultSubscription(StoredUser(u.id, u.name, u.email, Some(u.subscription))) == u
  {
  }

  /** A template card may be opened when the template is free, or when the
      user's plan is exactly "premium" (an expired plan does not count). */
  function CanUse(isPremium: bool, subscription: string): (r: bool)
    ensures r <==> !isPremium || subscription == PremiumPlan
  {
    !isPremium || (isPremium && subscription == PremiumPlan)
  }

  /** One entry of the backend's template catalog. */
  datatype CatalogTemplate = CatalogTemplate(id: int, name: string, kind: string, isPremium: bool)

  /** `templates.filter(t => t.type === kind)`. */
  function TemplatesOfType(catalog: seq<CatalogTemplate>, kind: string): (r: seq<CatalogTemplate>)
    ensures forall i :: 0 <= i < |r| ==> r[i].kind == kind && r[i] in catalog
    ensures forall t :: t in catalog && t.kind == kind ==> t in r
    ensures Subsequence(r, catalog)
  {
    Filter((t: CatalogTemplate) => t.kind == kind, catalog)
  }

  /** A catalog of only resume and cover-letter templates splits between the
      two grids: every template shows in exactly one of them. */
  lemma {:induction false} GridsPartitionCatalog(catalog: seq<CatalogTemplate>)
    requires forall i :: 0 <= i < |catalog| ==> catalog[i].kind == "resume" || catalog[i].kind == "cover_letter"
    ensures |TemplatesOfType(catalog, "resume")| + |TemplatesOfType(catalog, "cover_letter")| == |catalog|
  {
    if catalog != [] {
      GridsPartitionCatalog(catalog[1..]);
    }
  }

  /** The cards of one grid that open the editor for a user on `subscription`. */
  function UsableCards(catalog: seq<CatalogTemplate>, kind: string, subscription: string): seq<CatalogTemplate> {
    Filter((t: CatalogTemplate) => CanUse(t.isPremium, subscription), TemplatesOfType(catalog, kind))
  }

  /** A premium user can open every card of the grid; a user on any other
      plan can open exactly its free cards. */
  lemma UsableCardsByPlan(catalog: seq<CatalogTemplate>, kind: string, subscription: string)
    ensures subscription == PremiumPlan ==> UsableCards(catalog, kind, subscription) == TemplatesOfType(catalog, kind)
    ensures subscription != PremiumPlan ==>
      UsableCards(catalog, kind, subscription) == Filter((t: CatalogTemplate) => !t.isPremium, TemplatesOfType(catalog, kind))
  {
    var grid := TemplatesOfType(catalog, kind);
    var usable := (t: CatalogTemplate) => CanUse(t.isPremium, subscription);
    if subscription == PremiumPlan {
      FilterKeepsAll(usable, grid);
    } else {
      FilterAgree(usable, (t: CatalogTemplate) => !t.isPremium, grid);
    }
  }

  /** On a premium plan the two grids of a resume and cover-letter catalog
      together open every template in it. */
  lemma PremiumOpensCatalog(catalog: seq<CatalogTemplate>)
    requires forall i :: 0 <= i < |catalog| ==> catalog[i].kind == "resume" || catalog[i].kind == "cover_letter"
    ensures |UsableCards(catalog, "resume", PremiumPlan)| + |UsableCards(catalog, "cover_letter", PremiumPlan)| == |catalog|
  {
    UsableCardsByPlan(catalog, "resume", PremiumPlan);
    UsableCardsByPlan(catalog, "cover_letter", PremiumPlan);
    GridsPartitionCatalog(catalog);
  }

  /** A saved resume or cover letter as listed on the dashboard. */
  datatype Document = Document(id: int, title: string)

  datatype DocumentType = ResumeDoc | CoverLetterDoc

  /** The decimal digits of `n`, as a template literal prints a number. */
  function Decimal(n: nat): (r: string)
    ensures |r| > 0
    ensures forall i :: 0 <= i < |r| ==> '0' <= r[i] <= '9'
  {
    if n < 10 then [Digit(n)] else Decimal(n / 10) + [Digit(n % 10)]
  }

  function Digit(d: nat): (c: char)
    requires d < 10
    ensures '0' <= c <= '9' && c as int - '0' as int == d
  {
    (d + '0' as int) as char
  }

  /** Reads a string of decimal digits back as a number. */
  function DecimalValue(s: string): nat
    requires forall i :: 0 <= i < |s| ==> '0' <= s[i] <= '9'
  {
    if s == [] then 0 else DecimalValue(s[..|s| - 1]) * 10 + (s[|s| - 1] as int - '0' as int)
  }

  /** The printed id reads back as the id. */
  lemma {:induction false} DecimalRoundTrip(n: nat)
    ensures DecimalValue(Decimal(n)) == n
  {
    if n >= 10 {
      var r := Decimal(n);
      assert r[..|r| - 1] == Decimal(n / 10);
      DecimalRoundTrip(n / 10);
    }
  }

  function Collection(docType: DocumentType): string {
    match docType
    case ResumeDoc => "/api/resumes/"
    case CoverLetterDoc => "/api/cover-letters/"
  }

  /** The DELETE endpoint: the collection of the document's type followed by its id. */
  function Endpoint(docType: DocumentType, id: nat): string {
    Collection(docType) + Decimal(id)
  }

  /** Different documents are deleted through different endpoints: the
      endpoint determines both the type and the id. */
  lemma EndpointInjective(t1: DocumentType, id1: nat, t2: DocumentType, id2: nat)
    requires Endpoint(t1, id1) == Endpoint(t2, id2)
    ensures t1 == t2 && id1 == id2
  {
    var e := Endpoint(t1, id1);
    assert e[5] == Collection(t1)[5] && e[5] == Collection(t2)[5];
    var c := Collection(t1);
    assert Decimal(id1) == e[|c|..] == Decimal(id2);
    DecimalRoundTrip(id1);
    DecimalRoundTrip(id2);
  }

  /** `docs.filter(d => d.id !== id)`. */
  function WithoutId(docs: seq<Document>, id: int): (r: seq<Document>)
    ensures forall i :: 0 <= i < |r| ==> r[i].id != id && r[i] in docs
    ensures forall d :: d in docs && d.id != id ==> d in r
    ensures Subsequence(r, docs)
  {
    Filter((d: Document) => d.id != id, docs)
  }

  /** Deleting an id a second time, or an id no document has, changes nothing. */
  lemma WithoutIdIdempotent(docs: seq<Document>, id: int)
    ensures WithoutId(WithoutId(docs, id), id) == WithoutId(docs, id)
    ensures (forall d :: d in docs ==> d.id != id) ==> WithoutId(docs, id) == docs
  {
    FilterKeepsAll((d: Document) => d.id != id, WithoutId(docs, id));
    if forall d :: d in docs ==> d.id != id {
      FilterKeepsAll((d: Document) => d.id != id, docs);
    }
  }

  class DashboardPage {
    var user: Option<User>
    var resumes: seq<Document>
    var coverLetters: seq<Document>
    var isLoading: bool

    constructor()
      ensures user == None && resumes == [] && coverLetters == [] && isLoading
    {
      user := None;
      resumes := [];
      coverLetters := [];
      isLoading := true;
    }

    /** `checkAuth`: a stored user (with a token beside it) becomes the page's
      user, with the free plan when it had none; otherwise the page stays
      without a user. Loading ends either way. */
    method CheckAuth(stored: Option<StoredUser>, hasToken: bool)
      modifies this
      ensures user == if stored.Some? && hasToken then Some(WithDefaultSubscription(stored.value)) else old(user)
      ensures resumes == old(resumes) && coverLetters == old(coverLetters) && !isLoading
    {
      if stored.Some? && hasToken {
        user := Some(WithDefaultSubscription(stored.value));
      }
      isLoading := false;
    }

    /** The lists fetched from the backend replace the page's lists. */
    method DocumentsLoaded(resumesData: seq<Document>, coverLettersData: seq<Document>)
      modifies this
      ensures resumes == resumesData && coverLetters == coverLettersData
      ensures user == old(user) && isLoading == old(isLoading)
    {
      resumes := resumesData;
      coverLetters := coverLettersData;
    }

    /** `handleDelete`, with the user's answer to the confirmation and the
      outcome of the request as parameters. A declined confirmation sends
      nothing and changes nothing. Otherwise the DELETE goes to the endpoint
      of the document's type; unless the request throws, every document with
      that id leaves the list of that type, and the other list is untouched.
      The response's status is not inspected. */
    method HandleDelete(documentId: nat, docType: DocumentType, confirmed: bool, requestThrew: bool)
      returns (endpoint: Option<string>)
      modifies this
      ensures endpoint == if confirmed then Some(Endpoint(docType, documentId)) else None
      ensures resumes == if confirmed && !requestThrew && docType == ResumeDoc
        then WithoutId(old(resumes), documentId) else old(resumes)
      ensures coverLetters == if confirmed && !requestThrew && docType == CoverLetterDoc
        then WithoutId(old(coverLetters), documentId) else old(coverLetters)
      ensures user == old(user) && isLoading == old(isLoading)
    {
      if !confirmed {
        return None;
      }
      endpoint := Some(Endpoint(docType, documentId));
      if requestThrew {
        return;
      }
      if docType == ResumeDoc {
        resumes := WithoutId(resumes, documentId);
      } else {
        coverLetters := WithoutId(coverLetters, documentId);
      }
    }
  }

  /** After a confirmed delete that did not throw, no document of that type
      keeps the id, and every other document of that type is still listed. */
  lemma DeletedIdIsGone(docs: seq<Document>, id: int)
    ensures forall d :: d in WithoutId(docs, id) <==> d in docs && d.id != id
  {
  }
}
