/** The four-step consular application wizard: select a service, collect documents, upload them,
    submit. */
module ConsularApplication {
  import opened Base
  import opened StepMachine

  const StepCount: int := 4

  datatype ApplicationData = ApplicationData(
    service: string,
    documents: seq<string>,
    uploadedFiles: seq<File>,
    personalInfo: map<string, string>)

  /** A `Partial<ApplicationData>`: the keys present in the update object. */
  datatype ApplicationPatch = ApplicationPatch(
    service: Option<string>,
    documents: Option<seq<string>>,
    uploadedFiles: Option<seq<File>>,
    personalInfo: Option<map<string, string>>)

  const EmptyPatch := ApplicationPatch(None, None, None, None)

  /** The record every wizard starts from. */
  const InitialData := ApplicationData("", [], [], map[])

  /** `{ ...prev, ...data }`: every key named in the patch takes the patch's value, every other
      key keeps its value. */
  function Merge(d: ApplicationData, p: ApplicationPatch): (r: ApplicationData)
    ensures p.service.Some? ==> r.service == p.service.value
    ensures p.service.None? ==> r.service == d.service
    ensures p.documents.Some? ==> r.documents == p.documents.value
    ensures p.documents.None? ==> r.documents == d.documents
    ensures p.uploadedFiles.Some? ==> r.uploadedFiles == p.uploadedFiles.value
    ensures p.uploadedFiles.None? ==> r.uploadedFiles == d.uploadedFiles
    ensures p.personalInfo.Some? ==> r.personalInfo == p.personalInfo.value
    ensures p.personalInfo.None? ==> r.personalInfo == d.personalInfo
  {
    ApplicationData(
      Pick(p.service, d.service),
      Pick(p.documents, d.documents),
      Pick(p.uploadedFiles, d.uploadedFiles),
      Pick(p.personalInfo, d.personalInfo))
  }

  /** Two successive patches, the later one winning on shared keys. */
  function Then(p: ApplicationPatch, q: ApplicationPatch): ApplicationPatch
  {
    ApplicationPatch(
      if q.service.Some? then q.service else p.service,
      if q.documents.Some? then q.documents else p.documents,
      if q.uploadedFiles.Some? then q.uploadedFiles else p.uploadedFiles,
      if q.personalInfo.Some? then q.personalInfo else p.personalInfo)
  }

  /** The patch algebra: the empty patch changes nothing, a patch applied twice is applied once,
      and two patches in a row act as their combination. */
  lemma MergeLaws(d: ApplicationData, p: ApplicationPatch, q: ApplicationPatch)
    ensures Merge(d, EmptyPatch) == d
    ensures Merge(Merge(d, p), p) == Merge(d, p)
    ensures Merge(Merge(d, p), q) == Merge(d, Then(p, q))
  {
  }

  class Wizard {
    var currentStep: int
    var applicationData: ApplicationData

    predicate Valid()
      reads this
    {
      1 <= currentStep <= StepCount
    }

    constructor ()
      ensures Valid() && currentStep == 1 && applicationData == InitialData
    {
      currentStep := 1;
      applicationData := InitialData;
    }

    method HandleNext()
      requires Valid()
      modifies this
      ensures Valid() && applicationData == old(applicationData)
      ensures currentStep == Next(old(currentStep), StepCount)
    {
      if currentStep < StepCount {
        currentStep := currentStep + 1;
      }
    }

    method HandlePrevious()
      requires Valid()
      modifies this
      ensures Valid() && applicationData == old(applicationData)
      ensures currentStep == Previous(old(currentStep))
    {
      if currentStep > 1 {
        currentStep := currentStep - 1;
      }
    }

    /** `updateApplicationData`: a shallow merge of the patch; the step does not move. */
    method UpdateApplicationData(patch: ApplicationPatch)
      requires Valid()
      modifies this
      ensures Valid() && currentStep == old(currentStep)
      ensures applicationData == Merge(old(applicationData), patch)
    {
      applicationData := Merge(applicationData, patch);
    }
  }
}
