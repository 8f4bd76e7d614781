/** The records of the application (inspectors, scaffolds, checklist items,
    manual reminders) and the few helpers several screens share. Instants are
    integer milliseconds since the epoch; record ids are opaque strings. */
module Types {
  import Sorting

  datatype Option<+T> = None | Some(value: T)

  type Id = string

  /** Milliseconds in a day, `1000 * 3600 * 24`. */
  const DayMillis: int := 1000 * 3600 * 24

  datatype TagColor = Green | Yellow | Red

  /** A checklist answer: `'yes'`, `'no'` or `'na'` (not applicable). */
  datatype Status = Yes | No | NotApplicable

  datatype ChecklistItem = ChecklistItem(questionId: int, status: Status, description: string)

  datatype Inspector = Inspector(id: Id, name: string)

  /** A scaffold. Records saved before checklists existed have no checklist,
      hence the `Option`. */
  datatype Scaffold = Scaffold(
    id: Id,
    inspectorId: Id,
    unit: string,
    location: string,
    tagNumber: string,
    permitNumber: string,
    inspectionDate: int,
    tagColor: TagColor,
    checklist: Option<seq<ChecklistItem>>)

  /** The scaffold form's data: a scaffold without id, owner and checklist. */
  datatype ScaffoldDraft = ScaffoldDraft(
    unit: string,
    location: string,
    tagNumber: string,
    permitNumber: string,
    inspectionDate: int,
    tagColor: TagColor)

  /** A manually scheduled reminder. */
  datatype Reminder = Reminder(
    id: Id,
    inspectorId: Id,
    targetDateTime: int,
    unit: string,
    tagNumber: string,
    notes: string,
    isCompleted: bool)

  /** A reminder as handed to `addReminder`: without id and completion flag. */
  datatype ReminderDraft = ReminderDraft(
    inspectorId: Id,
    targetDateTime: int,
    unit: string,
    tagNumber: string,
    notes: string)

  /** What submitting a reminder form led to: nothing (no inspector in the
      inspector's own settings), an alert about the missing inspector, an
      alert about the date or time, or a new reminder. */
  datatype Outcome = Ignored | MissingInspector | InvalidDateTime | Added

  /** JavaScript truthiness of a `string | null` id: `null` and `''` are falsy. */
  predicate Present(id: Option<Id>)
  {
    id.Some? && id.value != ""
  }

  /** `CHECKLIST_QUESTIONS.map((_q, index) => ({ questionId: index + 1, status: 'na', description: '' }))`
      for a question list of length `questionCount`. */
  function DefaultChecklist(questionCount: nat): (c: seq<ChecklistItem>)
    ensures |c| == questionCount
    ensures forall k :: 0 <= k < |c| ==> c[k].status == NotApplicable && c[k].description == ""
    ensures WellFormedChecklist(c, questionCount)
  {
    seq(questionCount, k requires 0 <= k < questionCount => ChecklistItem(k + 1, NotApplicable, ""))
  }

  /** One item per question, item `k` answering question `k + 1`. */
  ghost predicate WellFormedChecklist(c: seq<ChecklistItem>, questionCount: nat)
  {
    |c| == questionCount && forall k :: 0 <= k < |c| ==> c[k].questionId == k + 1
  }

  /** A well-formed checklist has distinct question ids, all in `[1, questionCount]`. */
  lemma WellFormedChecklistIds(c: seq<ChecklistItem>, questionCount: nat)
    requires WellFormedChecklist(c, questionCount)
    ensures forall k :: 0 <= k < |c| ==> 1 <= c[k].questionId <= questionCount
    ensures forall k, m :: 0 <= k < m < |c| ==> c[k].questionId != c[m].questionId
  {
  }

  /** The position `inspectors.find(i => i.id === id)` stops at. */
  function FindInspectorIndex(inspectors: seq<Inspector>, id: Id): (r: Option<nat>)
    ensures r.Some? ==> r.value < |inspectors| && inspectors[r.value].id == id
    ensures r.Some? ==> forall m :: 0 <= m < r.value ==> inspectors[m].id != id
    ensures r.None? <==> forall m :: 0 <= m < |inspectors| ==> inspectors[m].id != id
  {
    if inspectors == [] then None
    else if inspectors[0].id == id then Some(0)
    else match FindInspectorIndex(inspectors[1..], id)
      case None => None
      case Some(k) => Some(k + 1)
  }

  /** `inspectors.find(i => i.id === id)`: the first inspector with that id. */
  function FindInspector(inspectors: seq<Inspector>, id: Id): Option<Inspector>
  {
    match FindInspectorIndex(inspectors, id)
    case None => None
    case Some(k) => Some(inspectors[k])
  }

  /** `!r.isCompleted`. */
  predicate IsOpen(r: Reminder)
  {
    !r.isCompleted
  }

  /** The comparator `new Date(a.targetDateTime).getTime() - new Date(b.targetDateTime).getTime()`,
      by which the reminder lists are sorted, is negative. */
  predicate TargetBefore(a: Reminder, b: Reminder)
  {
    a.targetDateTime - b.targetDateTime < 0
  }

  lemma TargetBeforeIsStrictWeakOrder()
    ensures Sorting.StrictWeakOrder(TargetBefore)
  {
  }

  /** Two reminders tie under the comparator exactly when their targets are equal. */
  lemma TargetTies(a: Reminder, b: Reminder)
    ensures Sorting.Ties(a, b, TargetBefore) <==> a.targetDateTime == b.targetDateTime
  {
  }
}
