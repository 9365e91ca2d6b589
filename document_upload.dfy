/** The four-step wizard's upload step: a list of files capped at the number of documents
    required, one checklist entry per document, and removal by position. */
module DocumentUpload {
  import opened Base
  import opened Lists

  /** `handleFileSelect` and `handleDrop`: the new files go after the old ones and the list is
      cut to the number of documents. When the old list already fits, it survives as a prefix;
      the result never holds more files than there are documents. */
  function AddFiles(uploaded: seq<File>, incoming: seq<File>, documentCount: nat): (r: seq<File>)
    ensures |r| == Min(|uploaded| + |incoming|, documentCount)
    ensures |r| <= documentCount
    ensures forall i :: 0 <= i < |r| ==> r[i] == (uploaded + incoming)[i]
    ensures |uploaded| <= documentCount ==> r[..|uploaded|] == uploaded
    ensures |uploaded| + |incoming| <= documentCount ==> r == uploaded + incoming
  {
    var all := uploaded + incoming;
    all[..Min(|all|, documentCount)]
  }

  /** `handleRemoveFile`: exactly the file at `index` goes, the others keep their order; an index
      outside the list changes nothing. */
  function RemoveFile(uploaded: seq<File>, index: int): (r: seq<File>)
    ensures 0 <= index < |uploaded| ==> |r| == |uploaded| - 1
    ensures 0 <= index < |uploaded| ==> multiset(r) == multiset(uploaded) - multiset{uploaded[index]}
    ensures 0 <= index < |uploaded| ==> forall i :: 0 <= i < |r| ==> r[i] == uploaded[if i < index then i else i + 1]
    ensures !(0 <= index < |uploaded|) ==> r == uploaded
  {
    if 0 <= index < |uploaded| then
      RemoveAtSpec(uploaded, index);
      RemoveAt(uploaded, index)
    else RemoveAt(uploaded, index)
  }

  /** `isComplete`: one file per document. */
  predicate IsComplete(uploaded: seq<File>, documents: seq<string>)
  {
    |uploaded| == |documents|
  }

  /** `hasFile` of checklist entry `index`. */
  predicate HasFile(uploaded: seq<File>, index: nat)
  {
    index < |uploaded|
  }

  /** The continue button is enabled iff the step is complete. */
  function ContinueEnabled(uploaded: seq<File>, documents: seq<string>): (enabled: bool)
    ensures enabled <==> |uploaded| == |documents|
  {
    IsComplete(uploaded, documents)
  }

  /** While the cap holds, the step is complete exactly when every checklist entry is ticked;
      every add keeps the cap. */
  lemma ChecklistMatchesCompletion(uploaded: seq<File>, documents: seq<string>, incoming: seq<File>)
    requires |uploaded| <= |documents|
    ensures IsComplete(uploaded, documents) <==> forall i :: 0 <= i < |documents| ==> HasFile(uploaded, i)
    ensures |AddFiles(uploaded, incoming, |documents|)| <= |documents|
  {
    if !IsComplete(uploaded, documents) {
      assert !HasFile(uploaded, |uploaded|);
    }
  }

  /** In the four-step wizard the checklist can shrink after files were uploaded: going back and
      unticking a document leaves more files than documents. Then every checklist entry shows
      a file while the step is not complete, and adding files cuts the list back to the cap. */
  lemma OverCapChecklistMisleads(uploaded: seq<File>, documents: seq<string>, incoming: seq<File>)
    requires |uploaded| > |documents|
    ensures forall i :: 0 <= i < |documents| ==> HasFile(uploaded, i)
    ensures !IsComplete(uploaded, documents) && !ContinueEnabled(uploaded, documents)
    ensures IsComplete(AddFiles(uploaded, incoming, |documents|), documents)
  {
  }

  /** Once complete, further files are dropped; removing any file undoes completion, and adding
      one file back restores it. */
  lemma CompleteTransitions(uploaded: seq<File>, documents: seq<string>, incoming: seq<File>, index: int, f: File)
    requires IsComplete(uploaded, documents)
    ensures AddFiles(uploaded, incoming, |documents|) == uploaded
    ensures 0 <= index < |uploaded| ==> !IsComplete(RemoveFile(uploaded, index), documents)
    ensures 0 <= index < |uploaded| ==>
      IsComplete(AddFiles(RemoveFile(uploaded, index), [f], |documents|), documents)
  {
    assert (uploaded + incoming)[..|uploaded|] == uploaded;
  }
}
