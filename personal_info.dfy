/** The personal-information step: a key/value record of text fields and uploaded files, edited
    one key at a time, with a completeness gate over three required keys. */
module PersonalInfo {
  import opened Base

  /** A value of the `Record<string, any>`: typed text or an uploaded file. */
  datatype InfoValue = Text(text: string) | Upload(file: File)

  type Info = map<string, InfoValue>

  /** JavaScript truthiness of a stored value: the empty string is falsy, a file is truthy. */
  predicate Truthy(v: InfoValue)
  {
    match v
    case Text(t) => t != ""
    case Upload(_) => true
  }

  /** `personalInfo[field]` is present and truthy. */
  predicate IsSet(info: Info, field: string)
  {
    field in info && Truthy(info[field])
  }

  const RequiredFields: seq<string> := ["passportNumber", "passportFile", "profilePhoto"]

  /** `handleInputChange`: the named field holds the typed text; every other field is kept. */
  function InputChange(info: Info, field: string, value: string): (r: Info)
    ensures r.Keys == info.Keys + {field}
    ensures r[field] == Text(value)
    ensures forall k :: k in info && k != field ==> r[k] == info[k]
  {
    info[field := Text(value)]
  }

  /** `handleFileUpload`: no update for a missing or empty file list; otherwise only the first
      file is stored under the field, every other field kept. */
  function FileUpload(info: Info, field: string, files: Option<seq<File>>): (r: Option<Info>)
    ensures r.None? <==> files.None? || files.value == []
    ensures r.Some? ==> r.value.Keys == info.Keys + {field} && r.value[field] == Upload(files.value[0])
    ensures r.Some? ==> forall k :: k in info && k != field ==> r.value[k] == info[k]
  {
    if files.None? || files.value == [] then None else Some(info[field := Upload(files.value[0])])
  }

  /** `handleRemoveFile`: the field becomes absent; every other field is kept. */
  function RemoveField(info: Info, field: string): (r: Info)
    ensures r.Keys == info.Keys - {field}
    ensures forall k :: k in r ==> r[k] == info[k]
  {
    info - {field}
  }

  /** `isComplete`: every required field is present and truthy. */
  function IsComplete(info: Info): (complete: bool)
    ensures complete <==> IsSet(info, "passportNumber") && IsSet(info, "passportFile") && IsSet(info, "profilePhoto")
  {
    assert RequiredFields[0] == "passportNumber" && RequiredFields[1] == "passportFile";
    assert RequiredFields[2] == "profilePhoto";
    forall i :: 0 <= i < |RequiredFields| ==> IsSet(info, RequiredFields[i])
  }

  /** The optional fields (`visaDocument`, `passportExpiry`) never decide completeness: setting or
      removing them leaves `isComplete` as it was. */
  lemma OptionalFieldsIrrelevant(info: Info, field: string, v: InfoValue)
    requires field == "visaDocument" || field == "passportExpiry"
    ensures IsComplete(info[field := v]) == IsComplete(info)
    ensures IsComplete(RemoveField(info, field)) == IsComplete(info)
  {
  }

  /** Removing any required field, or typing an empty passport number, makes the step
      incomplete; storing a file in each required file field and a non-empty passport number
      completes it. */
  lemma CompletenessTransitions(info: Info, field: string, number: string, passport: File, photo: File)
    requires field in RequiredFields
    ensures !IsComplete(RemoveField(info, field))
    ensures !IsComplete(InputChange(info, "passportNumber", ""))
    ensures number != "" ==>
      IsComplete(InputChange(info, "passportNumber", number)["passportFile" := Upload(passport)]["profilePhoto" := Upload(photo)])
  {
  }
}
