/** The preview step: readable names for the chosen service and centre, the date and time
    labels, and the three summary counters over the booking record. */
module PreviewConfirmation {
  import opened Base
  import Lists
  import SkylaneBooking
  import FormsUpload
  import PersonalInfo
  import AppointmentScheduling
  import DocumentCollectionStep

  /** `serviceMap` of `getServiceTitle`. */
  const ServiceTitles: map<string, string> := map[
    "passport-fresh" := "Fresh Passport Application",
    "passport-renewal" := "Passport Renewal",
    "visa-tourist" := "Tourist Visa",
    "visa-business" := "Business Visa",
    "identity-verification" := "Identity Verification",
    "immigration-consultation" := "Immigration Consultation"]

  /** `centerMap` of `getCenterName`. */
  const CenterNames: map<string, string> := map[
    "manama-center" := "Manama Service Center",
    "riffa-center" := "Riffa Service Center",
    "muharraq-center" := "Muharraq Service Center"]

  /** `getServiceTitle`: a known id gives its title, any other id is shown as it is. */
  function ServiceTitle(serviceId: string): (title: string)
    ensures serviceId in ServiceTitles ==> title == ServiceTitles[serviceId] && title != serviceId
    ensures serviceId !in ServiceTitles ==> title == serviceId
  {
    if serviceId in ServiceTitles then ServiceTitles[serviceId] else serviceId
  }

  /** `getCenterName`: a known id gives its name, any other id is shown as it is. */
  function CenterName(centerId: string): (name: string)
    ensures centerId in CenterNames ==> name == CenterNames[centerId] && name != centerId
    ensures centerId !in CenterNames ==> name == centerId
  {
    if centerId in CenterNames then CenterNames[centerId] else centerId
  }

  /** The preview names every centre of the appointment step as that step does. */
  lemma CenterNamesAgree(k: nat)
    requires k < |AppointmentScheduling.Centers|
    ensures CenterName(AppointmentScheduling.Centers[k].id) == AppointmentScheduling.Centers[k].name
  {
  }

  /** Every service that has a document checklist has a title of its own in the preview. */
  lemma ChecklistServicesTitled(service: string)
    requires DocumentCollectionStep.DocumentsFor(service) != []
    ensures service in ServiceTitles && ServiceTitle(service) != service
  {
  }

  /** `formatDate`: an empty date reads "Not selected"; any other date is shown in the locale
      form, which is given as `localeText`. */
  function DateLabel(date: string, localeText: string): (shown: string)
    ensures date == "" ==> shown == "Not selected"
    ensures date != "" ==> shown == localeText
  {
    if date == "" then "Not selected" else localeText
  }

  /** `appointment.time || 'Not selected'`. */
  function TimeLabel(time: string): (shown: string)
    ensures time == "" ==> shown == "Not selected"
    ensures time != "" ==> shown == time
  {
    if time == "" then "Not selected" else time
  }

  /** The keys of `formsAndIds` in the order `Object.values` visits them: each key once. */
  ghost predicate Enumerates(keys: seq<string>, forms: FormsUpload.Forms)
  {
    (forall k :: k in keys <==> k in forms)
    && forall i, j :: 0 <= i < j < |keys| ==> keys[i] != keys[j]
  }

  /** The `reduce` over `formsAndIds`: the list lengths under `keys`, a missing list counting 0. */
  function SumLengths(keys: seq<string>, forms: FormsUpload.Forms): nat
  {
    if keys == [] then 0
    else |FormsUpload.FilesOf(forms, keys[0])| + SumLengths(keys[1..], forms)
  }

  /** `totalUploadedFiles`: every file under every form plus the uploaded documents. */
  function TotalUploadedFiles(data: SkylaneBooking.BookingData, keys: seq<string>): (n: nat)
    requires Enumerates(keys, data.formsAndIds)
    ensures n >= |data.uploadedFiles|
    ensures data.formsAndIds == map[] ==> n == |data.uploadedFiles|
  {
    assert data.formsAndIds == map[] ==> keys == [] by {
      if keys != [] {
        assert keys[0] in data.formsAndIds;
      }
    }
    SumLengths(keys, data.formsAndIds) + |data.uploadedFiles|
  }

  /** The sum over a concatenation is the sum of the two sums. */
  lemma {:induction false} SumConcat(a: seq<string>, b: seq<string>, forms: FormsUpload.Forms)
    ensures SumLengths(a + b, forms) == SumLengths(a, forms) + SumLengths(b, forms)
  {
    if a == [] {
      assert a + b == b;
    } else {
      assert (a + b)[1..] == a[1..] + b;
      SumConcat(a[1..], b, forms);
    }
  }

  /** Taking one key out of the enumeration takes its list's length out of the sum. */
  lemma SumRemove(keys: seq<string>, i: nat, forms: FormsUpload.Forms)
    requires i < |keys|
    ensures SumLengths(keys, forms) == |FormsUpload.FilesOf(forms, keys[i])| + SumLengths(Lists.RemoveAt(keys, i), forms)
  {
    var before, after := keys[..i], keys[i + 1..];
    assert keys == before + ([keys[i]] + after);
    assert ([keys[i]] + after)[1..] == after;
    SumConcat(before, [keys[i]] + after, forms);
    SumConcat(before, after, forms);
  }

  /** Two repeat-free enumerations of the same keys give the same sum, whatever their order. */
  lemma {:induction false} SameKeysSameSum(k1: seq<string>, k2: seq<string>, forms: FormsUpload.Forms)
    requires Lists.Distinct(k1) && Lists.Distinct(k2)
    requires forall k :: k in k1 <==> k in k2
    ensures SumLengths(k1, forms) == SumLengths(k2, forms)
    decreases |k1|
  {
    if k1 == [] {
      Lists.NoMembersEmpty(k2);
    } else {
      assert k1[0] in k2;
      var i :| 0 <= i < |k2| && k2[i] == k1[0];
      SumRemove(k1, 0, forms);
      SumRemove(k2, i, forms);
      Lists.RemoveAtDistinct(k1, 0);
      Lists.RemoveAtDistinct(k2, i);
      SameKeysSameSum(Lists.RemoveAt(k1, 0), Lists.RemoveAt(k2, i), forms);
    }
  }

  /** The preview's total depends on the booking alone: any two orders in which `Object.values`
      may visit the forms give the same count. */
  lemma EnumerationIrrelevant(data: SkylaneBooking.BookingData, k1: seq<string>, k2: seq<string>)
    requires Enumerates(k1, data.formsAndIds) && Enumerates(k2, data.formsAndIds)
    ensures TotalUploadedFiles(data, k1) == TotalUploadedFiles(data, k2)
  {
    SameKeysSameSum(k1, k2, data.formsAndIds);
  }

  /** Replacing one key's list changes the sum by the difference of the two lengths. */
  lemma {:induction false} SumReplace(keys: seq<string>, forms: FormsUpload.Forms, k: string, v: seq<File>)
    requires k in keys
    requires forall i, j :: 0 <= i < j < |keys| ==> keys[i] != keys[j]
    ensures SumLengths(keys, forms[k := v]) + |FormsUpload.FilesOf(forms, k)| == SumLengths(keys, forms) + |v|
  {
    if keys[0] == k {
      assert k !in keys[1..];
      SumUntouched(keys[1..], forms, k, v);
    } else {
      SumReplace(keys[1..], forms, k, v);
    }
  }

  /** A key outside `keys` does not enter the sum. */
  lemma {:induction false} SumUntouched(keys: seq<string>, forms: FormsUpload.Forms, k: string, v: seq<File>)
    requires k !in keys
    ensures SumLengths(keys, forms[k := v]) == SumLengths(keys, forms)
  {
    if keys != [] {
      SumUntouched(keys[1..], forms, k, v);
    }
  }

  /** A key added at the end of the enumeration adds its list's length. */
  lemma {:induction false} SumAppend(keys: seq<string>, forms: FormsUpload.Forms, k: string)
    ensures SumLengths(keys + [k], forms) == SumLengths(keys, forms) + |FormsUpload.FilesOf(forms, k)|
  {
    if keys == [] {
      assert [] + [k] == [k];
    } else {
      assert (keys + [k])[1..] == keys[1..] + [k];
      SumAppend(keys[1..], forms, k);
    }
  }

  /** Selecting files for a form raises the preview's count by exactly the number selected; a
      form seen for the first time is enumerated after the others. */
  lemma SelectingFilesRaisesTotal(data: SkylaneBooking.BookingData, keys: seq<string>, formId: string, files: seq<File>)
    requires Enumerates(keys, data.formsAndIds)
    ensures var forms := FormsUpload.SelectFiles(data.formsAndIds, formId, Some(files)).value;
      var keys' := if formId in data.formsAndIds then keys else keys + [formId];
      Enumerates(keys', forms)
      && TotalUploadedFiles(data.(formsAndIds := forms), keys') == TotalUploadedFiles(data, keys) + |files|
  {
    var forms := FormsUpload.SelectFiles(data.formsAndIds, formId, Some(files)).value;
    var old_ := FormsUpload.FilesOf(data.formsAndIds, formId);
    assert forms == data.formsAndIds[formId := old_ + files];
    if formId in data.formsAndIds {
      SumReplace(keys, data.formsAndIds, formId, old_ + files);
    } else {
      SumUntouched(keys, data.formsAndIds, formId, old_ + files);
      SumAppend(keys, forms, formId);
      var keys' := keys + [formId];
      assert forall i :: 0 <= i < |keys| ==> keys'[i] == keys[i];
    }
  }

  /** Removing a file of a form lowers the count by one; an index outside the list changes
      nothing. */
  lemma RemovingFileLowersTotal(data: SkylaneBooking.BookingData, keys: seq<string>, formId: string, index: int)
    requires Enumerates(keys, data.formsAndIds) && formId in data.formsAndIds
    ensures var forms := FormsUpload.RemoveFile(data.formsAndIds, formId, index);
      Enumerates(keys, forms)
      && TotalUploadedFiles(data.(formsAndIds := forms), keys) ==
        if 0 <= index < |data.formsAndIds[formId]| then TotalUploadedFiles(data, keys) - 1
        else TotalUploadedFiles(data, keys)
  {
    var forms := FormsUpload.RemoveFile(data.formsAndIds, formId, index);
    assert forms == data.formsAndIds[formId := forms[formId]];
    SumReplace(keys, data.formsAndIds, formId, forms[formId]);
  }

  /** The "Required docs" counter: the documents chosen. */
  function DocumentsCounter(data: SkylaneBooking.BookingData): (n: nat)
    ensures n == |data.documents|
  {
    |data.documents|
  }

  /** The "Personal info" counter: 1 iff the passport number is set, 0 otherwise. */
  function PersonalInfoCounter(info: PersonalInfo.Info): (n: nat)
    ensures n <= 1
    ensures n == 1 <==> PersonalInfo.IsSet(info, "passportNumber")
  {
    if PersonalInfo.IsSet(info, "passportNumber") then 1 else 0
  }

  /** A completed personal-information step always shows 1. */
  lemma CompletePersonalInfoCounted(info: PersonalInfo.Info)
    requires PersonalInfo.IsComplete(info)
    ensures PersonalInfoCounter(info) == 1
  {
  }

  /** Continue has no gate. */
  function ContinueEnabled(data: SkylaneBooking.BookingData): (enabled: bool)
    ensures enabled
  {
    true
  }
}
