/** The forms-and-IDs step: a record of file lists keyed by form id, four required forms and two
    optional ones, and a continue gate that waits for every required form. */
module FormsUpload {
  import opened Base
  import opened Lists

  datatype Form = Form(id: string, title: string, required: bool)

  const FormTable: seq<Form> := [
    Form("passport-form", "Passport Application Form", true),
    Form("xrc-form", "XRC Form", true),
    Form("national-id", "National ID", true),
    Form("birth-certificate", "Birth Certificate", true),
    Form("parent-id", "Parent's ID", false),
    Form("visa-documents", "Visa Documents", false)
  ]

  /** `formsAndIds`. */
  type Forms = map<string, seq<File>>

  /** `formsAndIds[formId] || []`. */
  function FilesOf(forms: Forms, formId: string): seq<File>
  {
    if formId in forms then forms[formId] else []
  }

  /** `handleFileSelect`: no update for a null file list; otherwise the new files go after the
      form's existing ones and every other form keeps its files. */
  function SelectFiles(forms: Forms, formId: string, files: Option<seq<File>>): (r: Option<Forms>)
    ensures r.None? <==> files.None?
    ensures r.Some? ==> r.value.Keys == forms.Keys + {formId}
    ensures r.Some? ==> FilesOf(r.value, formId) == FilesOf(forms, formId) + files.value
    ensures r.Some? ==> forall k :: k != formId ==> FilesOf(r.value, k) == FilesOf(forms, k)
  {
    match files
    case None => None
    case Some(newFiles) => Some(forms[formId := FilesOf(forms, formId) + newFiles])
  }

  /** `handleRemoveFile`: only the `index`-th file of that form goes, the rest keep their order,
      and no other form is touched. */
  function RemoveFile(forms: Forms, formId: string, index: int): (r: Forms)
    ensures r.Keys == forms.Keys + {formId}
    ensures 0 <= index < |FilesOf(forms, formId)| ==>
      FilesOf(r, formId) == FilesOf(forms, formId)[..index] + FilesOf(forms, formId)[index + 1..]
    ensures !(0 <= index < |FilesOf(forms, formId)|) ==> FilesOf(r, formId) == FilesOf(forms, formId)
    ensures forall k :: k != formId ==> FilesOf(r, k) == FilesOf(forms, k)
  {
    forms[formId := RemoveAt(FilesOf(forms, formId), index)]
  }

  predicate IsRequiredForm(f: Form) { f.required }

  /** `formsAndIds[id]?.length > 0`. */
  predicate HasFiles(forms: Forms, formId: string)
  {
    |FilesOf(forms, formId)| > 0
  }

  function RequiredWithFiles(forms: Forms): Form -> bool
  {
    (f: Form) => f.required && HasFiles(forms, f.id)
  }

  /** `requiredFormsCount`: four of the six forms are required. */
  function RequiredFormsCount(): (n: nat)
    ensures n == 4
  {
    RequiredIds();
    |Filter(FormTable, IsRequiredForm)|
  }

  /** The required forms, by id. */
  lemma RequiredIds()
    ensures Filter(FormTable, IsRequiredForm) == FormTable[..4]
  {
    LastTwoOptional();
    OptionalTail(FormTable, 4, IsRequiredForm);
    FilterKeepsAll(FormTable[..4], IsRequiredForm);
  }

  lemma LastTwoOptional()
    ensures |FormTable| == 6
    ensures forall i :: 4 <= i < |FormTable| ==> !FormTable[i].required
  {
  }

  lemma FirstFour()
    ensures FormTable[..4] == [FormTable[0], FormTable[1], FormTable[2], FormTable[3]]
    ensures FormTable[0].id == "passport-form" && FormTable[1].id == "xrc-form"
    ensures FormTable[2].id == "national-id" && FormTable[3].id == "birth-certificate"
    ensures FormTable[0].required && FormTable[1].required && FormTable[2].required && FormTable[3].required
  {
  }

  /** When every form from `k` on is optional, a predicate that implies `required` keeps only
      forms before `k`. */
  lemma {:induction false} OptionalTail(table: seq<Form>, k: nat, p: Form -> bool)
    requires k <= |table|
    requires forall i :: k <= i < |table| ==> !table[i].required
    requires forall f :: p(f) ==> f.required
    ensures Filter(table, p) == Filter(table[..k], p)
  {
    assert table == table[..k] + table[k..];
    FilterAppend(table[..k], table[k..], p);
    var tail := table[k..];
    assert forall i :: 0 <= i < |tail| ==> !tail[i].required;
    FilterNone(tail, p);
  }

  /** `completedRequiredForms`: the required forms holding at least one file, between zero and
      the number of required forms. */
  function CompletedRequiredForms(forms: Forms): (n: nat)
    ensures n <= RequiredFormsCount()
  {
    FilterStronger(FormTable, RequiredWithFiles(forms), IsRequiredForm);
    |Filter(FormTable, RequiredWithFiles(forms))|
  }

  /** `isComplete`. */
  predicate IsComplete(forms: Forms)
  {
    CompletedRequiredForms(forms) == RequiredFormsCount()
  }

  /** The step is complete iff each of the four required forms has a file. */
  lemma CompleteIff(forms: Forms)
    ensures IsComplete(forms) <==>
      HasFiles(forms, "passport-form") && HasFiles(forms, "xrc-form")
      && HasFiles(forms, "national-id") && HasFiles(forms, "birth-certificate")
  {
    CompletedAmongFirstFour(forms);
    FirstFourAll(forms);
    FirstFourHaveFiles(forms);
  }

  lemma CompletedAmongFirstFour(forms: Forms)
    ensures CompletedRequiredForms(forms) == |Filter(FormTable[..4], RequiredWithFiles(forms))|
  {
    var p := RequiredWithFiles(forms);
    LastTwoOptional();
    assert forall f :: p(f) ==> f.required;
    OptionalTail(FormTable, 4, p);
  }

  lemma FirstFourAll(forms: Forms)
    ensures |Filter(FormTable[..4], RequiredWithFiles(forms))| == 4
      <==> forall f :: f in FormTable[..4] ==> RequiredWithFiles(forms)(f)
  {
    LastTwoOptional();
    FilterKeepsAll(FormTable[..4], RequiredWithFiles(forms));
  }

  lemma FirstFourHaveFiles(forms: Forms)
    ensures (forall f :: f in FormTable[..4] ==> RequiredWithFiles(forms)(f)) <==>
      HasFiles(forms, "passport-form") && HasFiles(forms, "xrc-form")
      && HasFiles(forms, "national-id") && HasFiles(forms, "birth-certificate")
  {
    FirstFour();
    var p := RequiredWithFiles(forms);
    assert p(FormTable[0]) == HasFiles(forms, "passport-form");
    assert p(FormTable[1]) == HasFiles(forms, "xrc-form");
    assert p(FormTable[2]) == HasFiles(forms, "national-id");
    assert p(FormTable[3]) == HasFiles(forms, "birth-certificate");
  }

  /** Files under the two optional forms never change completeness. */
  lemma OptionalFormsIrrelevant(forms: Forms, formId: string, files: seq<File>)
    requires formId == "parent-id" || formId == "visa-documents"
    ensures IsComplete(forms[formId := files]) == IsComplete(forms)
  {
    var updated := forms[formId := files];
    CompleteIff(forms);
    CompleteIff(updated);
    OtherFormUnchanged(forms, formId, files, "passport-form");
    OtherFormUnchanged(forms, formId, files, "xrc-form");
    OtherFormUnchanged(forms, formId, files, "national-id");
    OtherFormUnchanged(forms, formId, files, "birth-certificate");
  }

  lemma OtherFormUnchanged(forms: Forms, formId: string, files: seq<File>, other: string)
    requires other != formId
    ensures HasFiles(forms[formId := files], other) == HasFiles(forms, other)
  {
  }

  /** Adding files never undoes completeness. */
  lemma AddingKeepsComplete(forms: Forms, formId: string, files: seq<File>)
    requires IsComplete(forms)
    ensures IsComplete(SelectFiles(forms, formId, Some(files)).value)
  {
    var added := SelectFiles(forms, formId, Some(files)).value;
    CompleteIff(forms);
    CompleteIff(added);
    AddingKeepsFiles(forms, formId, files, "passport-form");
    AddingKeepsFiles(forms, formId, files, "xrc-form");
    AddingKeepsFiles(forms, formId, files, "national-id");
    AddingKeepsFiles(forms, formId, files, "birth-certificate");
  }

  lemma AddingKeepsFiles(forms: Forms, formId: string, files: seq<File>, other: string)
    requires HasFiles(forms, other)
    ensures HasFiles(SelectFiles(forms, formId, Some(files)).value, other)
  {
  }

  /** Removing the only file of a required form undoes completeness. */
  lemma RemovingOnlyFileBreaksCompletion(forms: Forms, f: File)
    requires FilesOf(forms, "national-id") == [f]
    ensures !IsComplete(RemoveFile(forms, "national-id", 0))
  {
    var removed := RemoveFile(forms, "national-id", 0);
    assert !HasFiles(removed, "national-id");
    CompleteIff(removed);
  }

  /** The continue button is enabled iff the step is complete. */
  function ContinueEnabled(forms: Forms): (enabled: bool)
    ensures enabled <==> CompletedRequiredForms(forms) == 4
  {
    IsComplete(forms)
  }
}
