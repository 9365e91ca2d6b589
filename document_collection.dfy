/** The document checklist of the four-step application: the requirement table per service, the
    required/optional split, the completion count and the continue gate. */
module DocumentCollection {
  import opened Lists
  import Checklist

  datatype Requirement = Requirement(id: string, title: string, required: bool)

  /** `documentRequirements[service] || []`: the table, with an unknown service having no
      requirements. */
  function RequirementsFor(service: string): seq<Requirement>
  {
    if service == "passport-fresh-minor" then [
      Requirement("birth-certificate", "Birth Certificate", true),
      Requirement("parents-passport", "Parents Passport Copy", true),
      Requirement("photographs", "Passport Photographs", true),
      Requirement("residence-proof", "Residence Proof", true),
      Requirement("no-objection", "No Objection Certificate", false)]
    else if service == "passport-reissue-adult" then [
      Requirement("current-passport", "Current Passport", true),
      Requirement("photographs", "Passport Photographs", true),
      Requirement("residence-proof", "Residence Proof", true),
      Requirement("employment-certificate", "Employment Certificate", true)]
    else if service == "emergency-certificate" then [
      Requirement("police-report", "Police Report", true),
      Requirement("travel-tickets", "Travel Documents", true),
      Requirement("photographs", "Passport Photographs", true),
      Requirement("identity-proof", "Identity Proof", true)]
    else []
  }

  predicate KnownService(service: string)
  {
    service in {"passport-fresh-minor", "passport-reissue-adult", "emergency-certificate"}
  }

  predicate IsRequired(r: Requirement) { r.required }
  predicate IsOptional(r: Requirement) { !r.required }

  function RequiredOf(reqs: seq<Requirement>): seq<Requirement> { Filter(reqs, IsRequired) }
  function OptionalOf(reqs: seq<Requirement>): seq<Requirement> { Filter(reqs, IsOptional) }

  function Ids(reqs: seq<Requirement>): seq<string>
  {
    Map(reqs, (r: Requirement) => r.id)
  }

  /** The required and optional lists split a service's entries: each entry is in exactly the
      list its flag names, as often as in the table, and both keep table order. */
  lemma RequiredOptionalPartition(reqs: seq<Requirement>)
    ensures |RequiredOf(reqs)| + |OptionalOf(reqs)| == |reqs|
    ensures forall r :: multiset(RequiredOf(reqs))[r] + multiset(OptionalOf(reqs))[r] == multiset(reqs)[r]
    ensures forall r :: r in RequiredOf(reqs) ==> r.required
    ensures forall r :: r in OptionalOf(reqs) ==> !r.required
    ensures IsSubsequence(RequiredOf(reqs), reqs) && IsSubsequence(OptionalOf(reqs), reqs)
  {
    forall r
      ensures multiset(RequiredOf(reqs))[r] + multiset(OptionalOf(reqs))[r] == multiset(reqs)[r]
    {
      FilterMultiplicity(reqs, IsRequired, r);
      FilterMultiplicity(reqs, IsOptional, r);
    }
    SizesAdd(reqs);
  }

  lemma {:induction false} SizesAdd(reqs: seq<Requirement>)
    ensures |RequiredOf(reqs)| + |OptionalOf(reqs)| == |reqs|
  {
    if reqs != [] {
      SizesAdd(reqs[1..]);
    }
  }

  function IsIn(documents: seq<string>): Requirement -> bool
  {
    (r: Requirement) => r.id in documents
  }

  /** `completedRequired`: how many required entries are ticked; never more than there are. */
  function CompletedRequired(service: string, documents: seq<string>): (n: nat)
    ensures n <= |RequiredOf(RequirementsFor(service))|
  {
    |Filter(RequiredOf(RequirementsFor(service)), IsIn(documents))|
  }

  /** `isReadyToNext`, which enables Continue: every required entry of the service is ticked. */
  function IsReadyToNext(service: string, documents: seq<string>): (ready: bool)
    ensures ready <==> forall r :: r in RequirementsFor(service) && r.required ==> r.id in documents
  {
    FilterKeepsAll(RequiredOf(RequirementsFor(service)), IsIn(documents));
    CompletedRequired(service, documents) == |RequiredOf(RequirementsFor(service))|
  }

  /** `handleDocumentToggle`: the list handed to `onDocumentsUpdate`. */
  function HandleDocumentToggle(documents: seq<string>, documentId: string): (updated: seq<string>)
    ensures updated == Checklist.Toggle(documents, documentId)
    ensures documentId in updated <==> documentId !in documents
  {
    Checklist.Toggle(documents, documentId)
  }

  /** A service missing from the table has no requirements, so any list is ready. */
  lemma UnknownServiceAlwaysReady(service: string, documents: seq<string>)
    requires !KnownService(service)
    ensures RequirementsFor(service) == [] && CompletedRequired(service, documents) == 0
    ensures IsReadyToNext(service, documents)
  {
  }

  /** For a fresh passport for a minor, the four certificates are required, in table order, and
      the no-objection certificate is the one optional entry. */
  lemma PassportFreshMinorRequirements(service: string)
    requires service == "passport-fresh-minor"
    ensures Ids(RequiredOf(RequirementsFor(service))) ==
      ["birth-certificate", "parents-passport", "photographs", "residence-proof"]
    ensures Ids(OptionalOf(RequirementsFor(service))) == ["no-objection"]
  {
    var reqs := RequirementsFor(service);
    FreshMinorSplit(reqs);
    IdsOfRequirements(reqs[..4], ["birth-certificate", "parents-passport", "photographs", "residence-proof"]);
    IdsOfRequirements(reqs[4..], ["no-objection"]);
  }

  lemma FreshMinorSplit(reqs: seq<Requirement>)
    requires reqs == RequirementsFor("passport-fresh-minor")
    ensures RequiredOf(reqs) == reqs[..4] && OptionalOf(reqs) == reqs[4..]
    ensures |reqs| == 5
    ensures reqs[0].id == "birth-certificate" && reqs[1].id == "parents-passport"
    ensures reqs[2].id == "photographs" && reqs[3].id == "residence-proof" && reqs[4].id == "no-objection"
  {
    RequiredThenOptional(reqs, 4);
  }

  lemma IdsOfRequirements(reqs: seq<Requirement>, ids: seq<string>)
    requires |reqs| == |ids| && forall i :: 0 <= i < |ids| ==> reqs[i].id == ids[i]
    ensures Ids(reqs) == ids
  {
  }

  /** A table whose first `k` entries are required and the rest optional splits at `k`. */
  lemma RequiredThenOptional(reqs: seq<Requirement>, k: nat)
    requires k <= |reqs|
    requires forall i :: 0 <= i < k ==> reqs[i].required
    requires forall i :: k <= i < |reqs| ==> !reqs[i].required
    ensures RequiredOf(reqs) == reqs[..k] && OptionalOf(reqs) == reqs[k..]
  {
    assert reqs[..k] + reqs[k..] == reqs;
    FilterAppend(reqs[..k], reqs[k..], IsRequired);
    FilterAppend(reqs[..k], reqs[k..], IsOptional);
    FilterKeepsAll(reqs[..k], IsRequired);
    FilterKeepsAll(reqs[k..], IsOptional);
    NoneKept(reqs[k..], IsRequired);
    NoneKept(reqs[..k], IsOptional);
  }

  lemma {:induction false} NoneKept(xs: seq<Requirement>, p: Requirement -> bool)
    requires forall i :: 0 <= i < |xs| ==> !p(xs[i])
    ensures Filter(xs, p) == []
  {
  }

  /** Ticking the required entries one by one makes the step ready; unticking one of them makes
      it not ready again. */
  lemma ToggleRequiredBreaksReadiness(service: string, documents: seq<string>, r: Requirement)
    requires r in RequirementsFor(service) && r.required && r.id in documents
    ensures !IsReadyToNext(service, HandleDocumentToggle(documents, r.id))
  {
  }
}
