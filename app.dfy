/** The application's record store: three persisted collections and the
    selectors that say who is working, plus the values derived from them
    (the inspector's scaffolds and the two badge counts). */
module App {
  import opened Types
  import opened Seqs
  import Dashboard

  // ---------------------------------------------------------------------
  // Filter predicates used by the store

  function IdIsNot(id: Id): Inspector -> bool
  {
    (i: Inspector) => i.id != id
  }

  function ScaffoldIdIsNot(id: Id): Scaffold -> bool
  {
    (s: Scaffold) => s.id != id
  }

  function ReminderIdIsNot(id: Id): Reminder -> bool
  {
    (r: Reminder) => r.id != id
  }

  function NotOwnedBy(id: Id): Scaffold -> bool
  {
    (s: Scaffold) => s.inspectorId != id
  }

  function ReminderNotOwnedBy(id: Id): Reminder -> bool
  {
    (r: Reminder) => r.inspectorId != id
  }

  function OwnedBy(id: Id): Scaffold -> bool
  {
    (s: Scaffold) => s.inspectorId == id
  }

  function ReminderOwnedBy(id: Id): Reminder -> bool
  {
    (r: Reminder) => r.inspectorId == id
  }

  // ---------------------------------------------------------------------
  // Record construction and replacement

  /** The scaffold `addScaffold` builds: the form's fields, the new id, the
      target inspector and a default checklist of `questionCount` items. */
  function NewScaffold(draft: ScaffoldDraft, id: Id, owner: Id, questionCount: nat): Scaffold
  {
    Scaffold(id, owner, draft.unit, draft.location, draft.tagNumber, draft.permitNumber,
             draft.inspectionDate, draft.tagColor, Some(DefaultChecklist(questionCount)))
  }

  /** The form fields of a scaffold. */
  function DraftOf(s: Scaffold): ScaffoldDraft
  {
    ScaffoldDraft(s.unit, s.location, s.tagNumber, s.permitNumber, s.inspectionDate, s.tagColor)
  }

  /** A new scaffold carries the form's fields unchanged, and its checklist
      answers every question with "not applicable". */
  lemma NewScaffoldFields(draft: ScaffoldDraft, id: Id, owner: Id, questionCount: nat)
    ensures DraftOf(NewScaffold(draft, id, owner, questionCount)) == draft
    ensures NewScaffold(draft, id, owner, questionCount).id == id
    ensures NewScaffold(draft, id, owner, questionCount).inspectorId == owner
    ensures var c := NewScaffold(draft, id, owner, questionCount).checklist;
            c.Some? && WellFormedChecklist(c.value, questionCount)
            && forall k :: 0 <= k < |c.value| ==> c.value[k].status == NotApplicable && c.value[k].description == ""
  {
  }

  /** The reminder `addReminder` builds: the supplied fields, the new id, not completed. */
  function NewReminder(draft: ReminderDraft, id: Id): Reminder
  {
    Reminder(id, draft.inspectorId, draft.targetDateTime, draft.unit, draft.tagNumber, draft.notes, false)
  }

  /** The supplied fields of a reminder. */
  function ReminderDraftOf(r: Reminder): ReminderDraft
  {
    ReminderDraft(r.inspectorId, r.targetDateTime, r.unit, r.tagNumber, r.notes)
  }

  lemma NewReminderFields(draft: ReminderDraft, id: Id)
    ensures ReminderDraftOf(NewReminder(draft, id)) == draft
    ensures NewReminder(draft, id).id == id && !NewReminder(draft, id).isCompleted
  {
  }

  /** `prev.map(s => s.id === updated.id ? updated : s)`. */
  function ReplaceScaffold(scaffolds: seq<Scaffold>, updated: Scaffold): (r: seq<Scaffold>)
    ensures |r| == |scaffolds|
    ensures forall k :: 0 <= k < |r| ==> r[k] == if scaffolds[k].id == updated.id then updated else scaffolds[k]
  {
    seq(|scaffolds|, k requires 0 <= k < |scaffolds| => if scaffolds[k].id == updated.id then updated else scaffolds[k])
  }

  /** Replacing twice with the same record is replacing once. */
  lemma ReplaceScaffoldIdempotent(scaffolds: seq<Scaffold>, updated: Scaffold)
    ensures ReplaceScaffold(ReplaceScaffold(scaffolds, updated), updated) == ReplaceScaffold(scaffolds, updated)
  {
  }

  /** No entry with that id: nothing changes. Otherwise the updated record is
      there and no entry with that id keeps its old value. */
  lemma ReplaceScaffoldEffect(scaffolds: seq<Scaffold>, updated: Scaffold)
    ensures (forall k :: 0 <= k < |scaffolds| ==> scaffolds[k].id != updated.id) ==>
              ReplaceScaffold(scaffolds, updated) == scaffolds
    ensures (exists k :: 0 <= k < |scaffolds| && scaffolds[k].id == updated.id) ==>
              updated in ReplaceScaffold(scaffolds, updated)
    ensures forall s :: s in ReplaceScaffold(scaffolds, updated) && s.id == updated.id ==> s == updated
  {
    var r := ReplaceScaffold(scaffolds, updated);
    if exists k :: 0 <= k < |scaffolds| && scaffolds[k].id == updated.id {
      var k :| 0 <= k < |scaffolds| && scaffolds[k].id == updated.id;
      assert r[k] == updated;
    }
  }

  /** `prev.map(r => r.id === id ? { ...r, isCompleted } : r)`. */
  function SetCompleted(reminders: seq<Reminder>, id: Id, isCompleted: bool): (r: seq<Reminder>)
    ensures |r| == |reminders|
    ensures forall k :: 0 <= k < |r| ==>
              r[k] == if reminders[k].id == id then reminders[k].(isCompleted := isCompleted) else reminders[k]
  {
    seq(|reminders|, k requires 0 <= k < |reminders| =>
      if reminders[k].id == id then reminders[k].(isCompleted := isCompleted) else reminders[k])
  }

  /** Only the completion flag of the matching entries changes, and setting
      it twice is setting it once. */
  lemma SetCompletedChangesOnlyFlag(reminders: seq<Reminder>, id: Id, isCompleted: bool)
    ensures var r := SetCompleted(reminders, id, isCompleted);
            forall k :: 0 <= k < |r| ==>
              r[k].(isCompleted := reminders[k].isCompleted) == reminders[k]
              && (r[k].id == id ==> r[k].isCompleted == isCompleted)
              && (r[k].id != id ==> r[k] == reminders[k])
    ensures SetCompleted(SetCompleted(reminders, id, isCompleted), id, isCompleted)
         == SetCompleted(reminders, id, isCompleted)
  {
  }

  /** A reminder marked done leaves the due-now list of the dashboard. */
  lemma CompletedLeavesPending(reminders: seq<Reminder>, id: Id, now: int)
    ensures forall x :: x in Dashboard.PendingManualReminders(SetCompleted(reminders, id, true), now) ==> x.id != id
  {
    var r := SetCompleted(reminders, id, true);
    Dashboard.PendingManualRemindersSpec(r, now);
  }

  // ---------------------------------------------------------------------
  // Derived values

  /** The selector the scaffold views follow: the admin's chosen inspector in
      admin mode, the logged-in inspector otherwise. */
  function TargetInspectorId(isSuperAdmin: bool, adminViewingInspectorId: Option<Id>, currentInspectorId: Option<Id>): Option<Id>
  {
    if isSuperAdmin then adminViewingInspectorId else currentInspectorId
  }

  /** `currentInspector`: the inspector the target selector names, if any. */
  function CurrentInspector(inspectors: seq<Inspector>, target: Option<Id>): (r: Option<Inspector>)
    ensures r.Some? ==> Present(target) && r.value in inspectors && r.value.id == target.value
    ensures r.None? <==> !Present(target) || forall k :: 0 <= k < |inspectors| ==> inspectors[k].id != target.value
  {
    if !Present(target) then None else FindInspector(inspectors, target.value)
  }

  /** `inspectorScaffolds`: the target inspector's scaffolds, in store order;
      none without a target. */
  function InspectorScaffolds(scaffolds: seq<Scaffold>, target: Option<Id>): (r: seq<Scaffold>)
    ensures !Present(target) ==> r == []
    ensures forall k :: 0 <= k < |r| ==> r[k] in scaffolds && r[k].inspectorId == target.value
    ensures Present(target) ==> forall k :: 0 <= k < |scaffolds| && scaffolds[k].inspectorId == target.value ==> scaffolds[k] in r
  {
    if !Present(target) then [] else Filter(scaffolds, OwnedBy(target.value))
  }

  /** The sidebar's own statement of the tag policy: Green past 30 days,
      Yellow past 7 days. */
  function BadgeRule(now: int): Scaffold -> bool
  {
    (s: Scaffold) =>
      var days := Dashboard.DaysSince(now, s.inspectionDate);
      if s.tagColor == Green && days > 30 then true
      else if s.tagColor == Yellow && days > 7 then true
      else false
  }

  /** `remindersCount`: the current inspector's scaffolds the badge rule flags. */
  function RemindersCount(scaffolds: seq<Scaffold>, currentInspectorId: Option<Id>, now: int): (n: nat)
    ensures !Present(currentInspectorId) ==> n == 0
  {
    if !Present(currentInspectorId) then 0
    else Count(Filter(scaffolds, OwnedBy(currentInspectorId.value)), BadgeRule(now))
  }

  /** The badge rule and the dashboard's tag policy flag the same scaffolds. */
  lemma BadgeRuleIsPolicy(now: int, s: Scaffold)
    ensures BadgeRule(now)(s) == Dashboard.Flagged(now)(s)
  {
  }

  /** The sidebar badge counts exactly the entries of the dashboard's smart
      reminder list for the same inspector and instant, whatever the sort. */
  lemma RemindersCountIsSmartReminderCount(scaffolds: seq<Scaffold>, currentInspectorId: Option<Id>, now: int,
                                           config: Dashboard.SortConfig)
    requires Present(currentInspectorId)
    ensures RemindersCount(scaffolds, currentInspectorId, now)
         == |Dashboard.SmartReminders(InspectorScaffolds(scaffolds, currentInspectorId), now, config)|
  {
    var mine := InspectorScaffolds(scaffolds, currentInspectorId);
    Dashboard.ProcessedIsFlaggedInOrder(mine, now);
    forall k | 0 <= k < |mine| ensures BadgeRule(now)(mine[k]) == Dashboard.Flagged(now)(mine[k]) {
      BadgeRuleIsPolicy(now, mine[k]);
    }
    FilterCongruent(mine, BadgeRule(now), Dashboard.Flagged(now));
  }

  function PendingForInspector(id: Id, now: int): Reminder -> bool
  {
    (r: Reminder) => r.inspectorId == id && !r.isCompleted && r.targetDateTime <= now
  }

  /** `pendingManualRemindersCount`: the current inspector's open reminders
      whose target has passed. */
  function PendingManualRemindersCount(reminders: seq<Reminder>, currentInspectorId: Option<Id>, now: int): (n: nat)
    ensures !Present(currentInspectorId) ==> n == 0
  {
    if !Present(currentInspectorId) then 0
    else Count(reminders, PendingForInspector(currentInspectorId.value, now))
  }

  /** The header badge equals the length of the dashboard's due-now list for
      the reminders the inspector view passes to it. */
  lemma PendingCountIsDashboardCount(reminders: seq<Reminder>, currentInspectorId: Option<Id>, now: int)
    requires Present(currentInspectorId)
    ensures PendingManualRemindersCount(reminders, currentInspectorId, now)
         == |Dashboard.PendingManualReminders(Filter(reminders, ReminderOwnedBy(currentInspectorId.value)), now)|
  {
    var id := currentInspectorId.value;
    FilterFilter(reminders, ReminderOwnedBy(id), Dashboard.DueBy(now), PendingForInspector(id, now));
  }

  // ---------------------------------------------------------------------
  // The store

  /** The three selectors, grouped to say "unchanged" in one place. */
  datatype Selection = Selection(currentInspectorId: Option<Id>, isSuperAdmin: bool, adminViewingInspectorId: Option<Id>)

  /** Everything the store holds, as one value. */
  datatype StoreState = StoreState(
    inspectors: seq<Inspector>,
    scaffolds: seq<Scaffold>,
    reminders: seq<Reminder>,
    selection: Selection)

  class Store {
    var inspectors: seq<Inspector>
    var scaffolds: seq<Scaffold>
    var reminders: seq<Reminder>
    var currentInspectorId: Option<Id>
    var isSuperAdmin: bool
    var adminViewingInspectorId: Option<Id>

    function Selected(): Selection
      reads this
    {
      Selection(currentInspectorId, isSuperAdmin, adminViewingInspectorId)
    }

    function State(): StoreState
      reads this
    {
      StoreState(inspectors, scaffolds, reminders, Selected())
    }

    /** The initial values of the persisted state. */
    constructor ()
      ensures inspectors == [] && scaffolds == [] && reminders == []
      ensures Selected() == Selection(None, false, None)
    {
      inspectors, scaffolds, reminders := [], [], [];
      currentInspectorId, isSuperAdmin, adminViewingInspectorId := None, false, None;
    }

    /** `addInspector`: append an inspector with the new id. */
    method AddInspector(name: string, newId: Id)
      modifies this
      ensures inspectors == old(inspectors) + [Inspector(newId, name)]
      ensures scaffolds == old(scaffolds) && reminders == old(reminders) && Selected() == old(Selected())
    {
      inspectors := inspectors + [Inspector(newId, name)];
    }

    /** `deleteInspector`: when confirmed, remove the inspector, every scaffold
        and reminder it owns, and clear each selector that names it. */
    method DeleteInspector(id: Id, confirmed: bool)
      modifies this
      ensures !confirmed ==>
                inspectors == old(inspectors) && scaffolds == old(scaffolds) && reminders == old(reminders)
                && Selected() == old(Selected())
      ensures confirmed ==>
                && inspectors == Filter(old(inspectors), IdIsNot(id))
                && scaffolds == Filter(old(scaffolds), NotOwnedBy(id))
                && reminders == Filter(old(reminders), ReminderNotOwnedBy(id))
                && adminViewingInspectorId == (if old(adminViewingInspectorId) == Some(id) then None else old(adminViewingInspectorId))
                && currentInspectorId == (if old(currentInspectorId) == Some(id) then None else old(currentInspectorId))
                && isSuperAdmin == old(isSuperAdmin)
      ensures confirmed ==>
                && (forall k :: 0 <= k < |inspectors| ==> inspectors[k].id != id)
                && (forall k :: 0 <= k < |scaffolds| ==> scaffolds[k].inspectorId != id)
                && (forall k :: 0 <= k < |reminders| ==> reminders[k].inspectorId != id)
                && currentInspectorId != Some(id) && adminViewingInspectorId != Some(id)
    {
      if confirmed {
        inspectors := Filter(inspectors, IdIsNot(id));
        scaffolds := Filter(scaffolds, NotOwnedBy(id));
        reminders := Filter(reminders, ReminderNotOwnedBy(id));
        if adminViewingInspectorId == Some(id) {
          adminViewingInspectorId := None;
        }
        if currentInspectorId == Some(id) {
          currentInspectorId := None;
        }
      }
    }

    /** `addScaffold`: without a target inspector nothing happens; otherwise
        one scaffold owned by the target, with the new id and a default
        checklist, is appended. */
    method AddScaffold(draft: ScaffoldDraft, newId: Id, questionCount: nat)
      modifies this
      ensures var target := TargetInspectorId(old(isSuperAdmin), old(adminViewingInspectorId), old(currentInspectorId));
              scaffolds == if Present(target) then old(scaffolds) + [NewScaffold(draft, newId, target.value, questionCount)]
                           else old(scaffolds)
      ensures inspectors == old(inspectors) && reminders == old(reminders) && Selected() == old(Selected())
    {
      var target := TargetInspectorId(isSuperAdmin, adminViewingInspectorId, currentInspectorId);
      if !Present(target) {
        return;
      }
      var added := NewScaffold(draft, newId, target.value, questionCount);
      scaffolds := scaffolds + [added];
    }

    /** `updateScaffold`: every entry with the updated record's id is replaced by it. */
    method UpdateScaffold(updated: Scaffold)
      modifies this
      ensures scaffolds == ReplaceScaffold(old(scaffolds), updated)
      ensures inspectors == old(inspectors) && reminders == old(reminders) && Selected() == old(Selected())
    {
      scaffolds := ReplaceScaffold(scaffolds, updated);
    }

    /** `deleteScaffold`: remove the entries with that id. */
    method DeleteScaffold(id: Id)
      modifies this
      ensures scaffolds == Filter(old(scaffolds), ScaffoldIdIsNot(id))
      ensures inspectors == old(inspectors) && reminders == old(reminders) && Selected() == old(Selected())
    {
      scaffolds := Filter(scaffolds, ScaffoldIdIsNot(id));
    }

    /** `addReminder`: append the reminder with the new id, not completed. */
    method AddReminder(draft: ReminderDraft, newId: Id)
      modifies this
      ensures reminders == old(reminders) + [NewReminder(draft, newId)]
      ensures inspectors == old(inspectors) && scaffolds == old(scaffolds) && Selected() == old(Selected())
    {
      reminders := reminders + [NewReminder(draft, newId)];
    }

    /** `deleteReminder`: remove the entries with that id. */
    method DeleteReminder(id: Id)
      modifies this
      ensures reminders == Filter(old(reminders), ReminderIdIsNot(id))
      ensures inspectors == old(inspectors) && scaffolds == old(scaffolds) && Selected() == old(Selected())
    {
      reminders := Filter(reminders, ReminderIdIsNot(id));
    }

    /** `updateReminderStatus`: set the completion flag of the entries with that id. */
    method UpdateReminderStatus(id: Id, isCompleted: bool)
      modifies this
      ensures reminders == SetCompleted(old(reminders), id, isCompleted)
      ensures inspectors == old(inspectors) && scaffolds == old(scaffolds) && Selected() == old(Selected())
    {
      reminders := SetCompleted(reminders, id, isCompleted);
    }

    /** `resetApp`: when confirmed, empty every collection and clear the selectors. */
    method ResetApp(confirmed: bool)
      modifies this
      ensures confirmed ==> inspectors == [] && scaffolds == [] && reminders == [] && Selected() == Selection(None, false, None)
      ensures !confirmed ==>
                inspectors == old(inspectors) && scaffolds == old(scaffolds) && reminders == old(reminders)
                && Selected() == old(Selected())
    {
      if confirmed {
        inspectors, scaffolds, reminders := [], [], [];
        currentInspectorId := None;
        isSuperAdmin := false;
        adminViewingInspectorId := None;
      }
    }

    /** `logout`: clear the selectors; the records stay. */
    method Logout()
      modifies this
      ensures Selected() == Selection(None, false, None)
      ensures inspectors == old(inspectors) && scaffolds == old(scaffolds) && reminders == old(reminders)
    {
      currentInspectorId := None;
      isSuperAdmin := false;
      adminViewingInspectorId := None;
    }

    /** The selection screen's `onSelect`: log in as that inspector. */
    method SelectInspector(id: Id)
      modifies this
      ensures Selected() == old(Selected()).(currentInspectorId := Some(id))
      ensures inspectors == old(inspectors) && scaffolds == old(scaffolds) && reminders == old(reminders)
    {
      currentInspectorId := Some(id);
    }

    /** The selection screen's `onLoginAdmin`. */
    method LoginAdmin()
      modifies this
      ensures Selected() == old(Selected()).(isSuperAdmin := true)
      ensures inspectors == old(inspectors) && scaffolds == old(scaffolds) && reminders == old(reminders)
    {
      isSuperAdmin := true;
    }

    /** The admin dashboard's `onViewInspector` (an id) and the header's back
        button (`None`). */
    method SetAdminViewingInspector(id: Option<Id>)
      modifies this
      ensures Selected() == old(Selected()).(adminViewingInspectorId := id)
      ensures inspectors == old(inspectors) && scaffolds == old(scaffolds) && reminders == old(reminders)
    {
      adminViewingInspectorId := id;
    }
  }

  /** After a confirmed cascade delete, the deleted inspector's views are
      empty and its badge counts are zero, whatever the instant. */
  lemma DeletedInspectorHasNothing(scaffolds: seq<Scaffold>, reminders: seq<Reminder>, id: Id, now: int)
    requires id != ""
    ensures InspectorScaffolds(Filter(scaffolds, NotOwnedBy(id)), Some(id)) == []
    ensures RemindersCount(Filter(scaffolds, NotOwnedBy(id)), Some(id), now) == 0
    ensures PendingManualRemindersCount(Filter(reminders, ReminderNotOwnedBy(id)), Some(id), now) == 0
  {
    var s := Filter(scaffolds, NotOwnedBy(id));
    var r := Filter(reminders, ReminderNotOwnedBy(id));
    FilterNone(s, OwnedBy(id));
    FilterNone(r, PendingForInspector(id, now));
  }
}
