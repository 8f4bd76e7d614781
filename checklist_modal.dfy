/** The checklist dialog: a working copy of the scaffold's checklist, edited
    question by question and handed back with the scaffold on submit. */
module ChecklistModal {
  import opened Types
  import ScaffoldList

  /** `prev.map(item => item.questionId === questionId ? { ...item, status } : item)`. */
  function SetStatus(items: seq<ChecklistItem>, questionId: int, status: Status): (r: seq<ChecklistItem>)
    ensures |r| == |items|
    ensures forall k :: 0 <= k < |r| ==>
              && r[k].questionId == items[k].questionId
              && r[k].description == items[k].description
              && r[k].status == if items[k].questionId == questionId then status else items[k].status
  {
    seq(|items|, k requires 0 <= k < |items| =>
      if items[k].questionId == questionId then items[k].(status := status) else items[k])
  }

  /** `prev.map(item => item.questionId === questionId ? { ...item, description } : item)`. */
  function SetDescription(items: seq<ChecklistItem>, questionId: int, description: string): (r: seq<ChecklistItem>)
    ensures |r| == |items|
    ensures forall k :: 0 <= k < |r| ==>
              && r[k].questionId == items[k].questionId
              && r[k].status == items[k].status
              && r[k].description == if items[k].questionId == questionId then description else items[k].description
  {
    seq(|items|, k requires 0 <= k < |items| =>
      if items[k].questionId == questionId then items[k].(description := description) else items[k])
  }

  /** An edit for a question that is not on the list changes nothing. */
  lemma EditOfAbsentQuestion(items: seq<ChecklistItem>, questionId: int, status: Status, description: string)
    requires forall k :: 0 <= k < |items| ==> items[k].questionId != questionId
    ensures SetStatus(items, questionId, status) == items
    ensures SetDescription(items, questionId, description) == items
  {
  }

  /** The last answer to a question wins. */
  lemma LastEditWins(items: seq<ChecklistItem>, questionId: int, s1: Status, s2: Status, d1: string, d2: string)
    ensures SetStatus(SetStatus(items, questionId, s1), questionId, s2) == SetStatus(items, questionId, s2)
    ensures SetDescription(SetDescription(items, questionId, d1), questionId, d2) == SetDescription(items, questionId, d2)
  {
  }

  /** A status edit and a description edit do not interfere, in either order. */
  lemma EditsCommute(items: seq<ChecklistItem>, q1: int, status: Status, q2: int, description: string)
    ensures SetDescription(SetStatus(items, q1, status), q2, description)
         == SetStatus(SetDescription(items, q2, description), q1, status)
  {
  }

  /** Edits keep a well-formed checklist well formed. */
  lemma EditsKeepWellFormed(items: seq<ChecklistItem>, questionCount: nat, questionId: int, status: Status, description: string)
    requires WellFormedChecklist(items, questionCount)
    ensures WellFormedChecklist(SetStatus(items, questionId, status), questionCount)
    ensures WellFormedChecklist(SetDescription(items, questionId, description), questionCount)
  {
  }

  /** `scaffold.checklist || []`. */
  function InitialChecklist(s: Scaffold): seq<ChecklistItem>
  {
    if s.checklist.Some? then s.checklist.value else []
  }

  /** A scaffold opened from the list always shows its dialog when there is
      at least one question: the normalised checklist has one item per question. */
  lemma OpenedChecklistRenders(s: Scaffold, questionCount: nat)
    requires questionCount > 0
    ensures |InitialChecklist(ScaffoldList.NormalizeChecklist(s, questionCount))| == questionCount
  {
  }

  /** The dialog's `checklistData` state for one scaffold. */
  class ChecklistEditor {
    const scaffold: Scaffold
    var checklistData: seq<ChecklistItem>

    /** The effect that copies the scaffold's checklist into the state. */
    constructor (scaffold: Scaffold)
      ensures this.scaffold == scaffold
      ensures checklistData == InitialChecklist(scaffold)
    {
      this.scaffold := scaffold;
      checklistData := InitialChecklist(scaffold);
    }

    /** `if (!checklistData.length) return null`: an empty list shows nothing. */
    predicate Renders()
      reads this
    {
      |checklistData| != 0
    }

    method HandleStatusChange(questionId: int, status: Status)
      modifies this
      ensures checklistData == SetStatus(old(checklistData), questionId, status)
    {
      checklistData := SetStatus(checklistData, questionId, status);
    }

    method HandleDescriptionChange(questionId: int, description: string)
      modifies this
      ensures checklistData == SetDescription(old(checklistData), questionId, description)
    {
      checklistData := SetDescription(checklistData, questionId, description);
    }

    /** `handleSubmit`: the scaffold with its checklist replaced by the edited
        list and every other field as it was. */
    method HandleSubmit() returns (saved: Scaffold)
      ensures saved.checklist == Some(checklistData)
      ensures saved.(checklist := scaffold.checklist) == scaffold
    {
      saved := scaffold.(checklist := Some(checklistData));
    }
  }

  /** Submitting an unedited dialog saves back the scaffold it was opened on,
      when that scaffold had a checklist. */
  lemma UneditedSubmitIsIdentity(s: Scaffold)
    requires s.checklist.Some?
    ensures s.(checklist := Some(InitialChecklist(s))) == s
  {
  }
}
