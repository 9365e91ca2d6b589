/** The document checklist of the booking wizard: the per-service table, the automatic selection
    of required documents, the toggle that cannot unselect a required document, and the count of
    optional documents selected. */
module DocumentCollectionStep {
  import opened Base
  import opened Lists
  import Checklist

  datatype ServiceDocument = ServiceDocument(id: string, name: string, required: bool, hasTemplate: bool)

  /** `serviceDocuments[service] || []`. */
  function DocumentsFor(service: string): seq<ServiceDocument>
  {
    if service == "passport-fresh" then [
      ServiceDocument("birth-certificate", "Birth Certificate", true, false),
      ServiceDocument("national-id", "National ID Copy", true, false),
      ServiceDocument("photos", "Passport Size Photos (2)", true, false),
      ServiceDocument("application-form", "Passport Application Form", true, true),
      ServiceDocument("parent-consent", "Parent Consent Letter", false, true)]
    else if service == "passport-renewal" then [
      ServiceDocument("old-passport", "Old Passport Copy", true, false),
      ServiceDocument("national-id", "National ID Copy", true, false),
      ServiceDocument("photos", "Recent Passport Photos (2)", true, false),
      ServiceDocument("renewal-form", "Passport Renewal Form", true, true)]
    else if service == "visa-tourist" then [
      ServiceDocument("passport", "Valid Passport", true, false),
      ServiceDocument("photos", "Visa Application Photos (2)", true, false),
      ServiceDocument("visa-form", "Tourist Visa Application Form", true, true),
      ServiceDocument("travel-itinerary", "Travel Itinerary", true, true),
      ServiceDocument("bank-statement", "Bank Statement (3 months)", true, false)]
    else []
  }

  predicate UniqueIds(docs: seq<ServiceDocument>)
  {
    forall i, j :: 0 <= i < j < |docs| ==> docs[i].id != docs[j].id
  }

  /** No service lists the same document twice. */
  lemma TableIdsUnique(service: string)
    ensures UniqueIds(DocumentsFor(service))
  {
  }

  predicate IsRequiredDocument(d: ServiceDocument) { d.required }

  function IdOf(d: ServiceDocument): string { d.id }

  /** The auto-select effect: the ids of the service's required documents, in table order and
      each once; an unknown service yields the empty list. */
  function AutoSelected(service: string): (ids: seq<string>)
    ensures forall id :: id in ids <==> exists d :: d in DocumentsFor(service) && d.required && d.id == id
    ensures IsSubsequence(ids, Map(DocumentsFor(service), IdOf))
    ensures Distinct(ids)
    ensures DocumentsFor(service) == [] ==> ids == []
  {
    var docs := DocumentsFor(service);
    var required := Filter(docs, IsRequiredDocument);
    var ids := Map(required, IdOf);
    assert forall id :: id in ids ==> exists k :: 0 <= k < |required| && required[k].id == id;
    MapSubsequence(required, docs, IdOf);
    TableIdsUnique(service);
    assert Distinct(Map(docs, IdOf));
    SubsequenceDistinct(ids, Map(docs, IdOf));
    ids
  }

  /** `requiredDocs.find(d => d.id === id)`. */
  function FindDocument(docs: seq<ServiceDocument>, id: string): (r: Option<ServiceDocument>)
    ensures r.Some? ==> r.value in docs && r.value.id == id
    ensures r.None? <==> forall d :: d in docs ==> d.id != id
  {
    if docs == [] then None
    else if docs[0].id == id then Some(docs[0])
    else
      assert forall d :: d in docs ==> d == docs[0] || d in docs[1..];
      FindDocument(docs[1..], id)
  }

  /** The toggle's guard: the document found under that id is required. */
  predicate IsLocked(service: string, id: string)
  {
    var found := FindDocument(DocumentsFor(service), id);
    found.Some? && found.value.required
  }

  /** `toggleDocument`: a required document is never toggled; any other id is toggled. A
      required document that is selected stays selected. */
  function ToggleDocument(service: string, documents: seq<string>, id: string): (r: seq<string>)
    ensures IsLocked(service, id) ==> r == documents
    ensures !IsLocked(service, id) ==> r == Checklist.Toggle(documents, id)
    ensures forall d :: d in DocumentsFor(service) && d.required && d.id in documents ==> d.id in r
  {
    TableIdsUnique(service);
    if IsLocked(service, id) then documents
    else
      Checklist.Toggle(documents, id)
  }

  /** A run of checkbox clicks, starting from the automatic selection. */
  function ToggleAll(service: string, documents: seq<string>, clicks: seq<string>): seq<string>
    decreases |clicks|
  {
    if clicks == [] then documents
    else ToggleAll(service, ToggleDocument(service, documents, clicks[0]), clicks[1..])
  }

  /** Whatever the user clicks after the automatic selection, every required document stays
      selected. */
  lemma {:induction false} RequiredStaySelected(service: string, documents: seq<string>, clicks: seq<string>)
    requires forall d :: d in DocumentsFor(service) && d.required ==> d.id in documents
    ensures forall d :: d in DocumentsFor(service) && d.required ==> d.id in ToggleAll(service, documents, clicks)
    decreases |clicks|
  {
    if clicks != [] {
      RequiredStaySelected(service, ToggleDocument(service, documents, clicks[0]), clicks[1..]);
    }
  }

  /** The automatic selection satisfies the premise, so it survives any clicks. */
  lemma AutoSelectionSurvives(service: string, clicks: seq<string>)
    ensures forall d :: d in DocumentsFor(service) && d.required ==> d.id in ToggleAll(service, AutoSelected(service), clicks)
  {
    RequiredStaySelected(service, AutoSelected(service), clicks);
  }

  function OptionalSelected(documents: seq<string>): ServiceDocument -> bool
  {
    (d: ServiceDocument) => !d.required && d.id in documents
  }

  predicate IsOptionalDocument(d: ServiceDocument) { !d.required }

  /** The "optional documents" counter: the optional entries whose id is selected; never more
      than the optional entries of the service. */
  function OptionalSelectedCount(service: string, documents: seq<string>): (n: nat)
    ensures n <= |Filter(DocumentsFor(service), IsOptionalDocument)|
  {
    var docs := DocumentsFor(service);
    FilterStronger(docs, OptionalSelected(documents), IsOptionalDocument);
    |Filter(docs, OptionalSelected(documents))|
  }

  /** Right after the automatic selection no optional document is counted. */
  lemma AutoSelectionCountsNoOptional(service: string)
    ensures OptionalSelectedCount(service, AutoSelected(service)) == 0
  {
    TableIdsUnique(service);
    NoOptionalAmongRequired(DocumentsFor(service), AutoSelected(service));
  }

  /** With unique ids, no optional entry carries the id of a required one. */
  lemma NoOptionalAmongRequired(docs: seq<ServiceDocument>, ids: seq<string>)
    requires UniqueIds(docs)
    requires forall id :: id in ids ==> exists d :: d in docs && d.required && d.id == id
    ensures Filter(docs, OptionalSelected(ids)) == []
  {
    forall d | d in docs && !d.required
      ensures d.id !in ids
    {
    }
  }

  /** Continue has no gate. */
  function ContinueEnabled(service: string, documents: seq<string>): (enabled: bool)
    ensures enabled
  {
    true
  }
}
