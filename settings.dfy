/** The settings screen: the inspector's upcoming reminders, the reminder
    form for the logged-in inspector, and the form that adds an inspector. */
module Settings {
  import opened Types
  import opened Seqs
  import opened Sorting
  import Text
  import App
  import Dashboard

  /** `upcomingReminders`: every open reminder, past-due ones included,
      earliest target first. */
  function UpcomingReminders(reminders: seq<Reminder>): seq<Reminder>
  {
    SortBy(Filter(reminders, IsOpen), TargetBefore)
  }

  lemma UpcomingRemindersSpec(reminders: seq<Reminder>)
    ensures var r := UpcomingReminders(reminders);
            && multiset(r) == multiset(Filter(reminders, IsOpen))
            && (forall x :: x in r <==> x in reminders && !x.isCompleted)
            && (forall i, j :: 0 <= i < j < |r| ==> r[i].targetDateTime <= r[j].targetDateTime)
  {
    var r := UpcomingReminders(reminders);
    var f := Filter(reminders, IsOpen);
    TargetBeforeIsStrictWeakOrder();
    SortBySorted(f, TargetBefore);
    SortByPermutes(f, TargetBefore);
    forall x ensures x in r <==> x in reminders && !x.isCompleted {
      assert x in r <==> x in multiset(f);
      if x in reminders && !x.isCompleted {
        var k :| 0 <= k < |reminders| && reminders[k] == x;
        assert IsOpen(reminders[k]);
      }
    }
  }

  /** No time filter: every reminder due now is also upcoming, and an open
      reminder is upcoming whatever its target. */
  lemma PendingAreUpcoming(reminders: seq<Reminder>, now: int)
    ensures forall x :: x in Dashboard.PendingManualReminders(reminders, now) ==> x in UpcomingReminders(reminders)
  {
    Dashboard.PendingManualRemindersSpec(reminders, now);
    UpcomingRemindersSpec(reminders);
  }

  /** Marking a reminder done removes it from the upcoming list. */
  lemma CompletedLeavesUpcoming(reminders: seq<Reminder>, id: Id)
    ensures forall x :: x in UpcomingReminders(App.SetCompleted(reminders, id, true)) ==> x.id != id
  {
    UpcomingRemindersSpec(App.SetCompleted(reminders, id, true));
  }

  /** `newReminderData` of the inspector's reminder form. */
  class ReminderForm {
    var date: string
    var time: string
    var unit: string
    var tagNumber: string
    var notes: string
    /** The date and time `initialReminderState` formatted when the module loaded. */
    const initialDate: string
    const initialTime: string

    constructor (initialDate: string, initialTime: string)
      ensures this.initialDate == initialDate && this.initialTime == initialTime
      ensures date == initialDate && time == initialTime
      ensures unit == "" && tagNumber == "" && notes == ""
    {
      this.initialDate, this.initialTime := initialDate, initialTime;
      date, time := initialDate, initialTime;
      unit, tagNumber, notes := "", "", "";
    }

    /** `handleAddReminder`. Without a logged-in inspector nothing happens; a
        date and time that do not parse are reported and add nothing;
        otherwise exactly one reminder for the logged-in inspector is added
        and the form is reset. `parseDateTime` stands for the Jalali `parse`,
        `setHours` and `toISOString` together. */
    method HandleAddReminder(store: App.Store, currentInspectorId: Option<Id>,
                             parseDateTime: (string, string) -> Option<int>, newId: Id)
      returns (outcome: Outcome)
      modifies this, store
      ensures !Present(currentInspectorId) ==>
                outcome == Ignored && store.State() == old(store.State())
      ensures Present(currentInspectorId) && parseDateTime(old(date), old(time)).None? ==>
                outcome == InvalidDateTime && store.State() == old(store.State())
      ensures Present(currentInspectorId) && parseDateTime(old(date), old(time)).Some? ==>
                && outcome == Added
                && store.State() == old(store.State()).(reminders := old(store.reminders) + [
                     App.NewReminder(ReminderDraft(currentInspectorId.value, parseDateTime(old(date), old(time)).value,
                                                   old(unit), old(tagNumber), old(notes)), newId)])
                && date == initialDate && time == initialTime
                && unit == "" && tagNumber == "" && notes == ""
      ensures outcome != Added ==>
                date == old(date) && time == old(time) && unit == old(unit) && tagNumber == old(tagNumber) && notes == old(notes)
    {
      if !Present(currentInspectorId) {
        return Ignored;
      }
      var target := parseDateTime(date, time);
      if target.None? {
        return InvalidDateTime;
      }
      store.AddReminder(ReminderDraft(currentInspectorId.value, target.value, unit, tagNumber, notes), newId);
      date, time := initialDate, initialTime;
      unit, tagNumber, notes := "", "", "";
      outcome := Added;
    }
  }

  /** The name `handleAddInspector` adds: the trimmed input, or nothing when
      the input is empty or only whitespace. An added name is never empty and
      neither starts nor ends with whitespace. */
  function NameToAdd(input: string): (r: Option<string>)
    ensures r.None? <==> Text.AllWhitespace(input)
    ensures r.Some? ==> r.value != [] && !Text.IsWhitespace(r.value[0]) && !Text.IsWhitespace(r.value[|r.value| - 1])
    ensures r.Some? ==> Text.Contains(input, r.value)
  {
    var t := Text.Trim(input);
    Text.TrimSpec(input);
    if t != [] then
      Text.ContainsAt(input, t, Text.LeadingWhitespace(input));
      Some(t)
    else None
  }

  /** `newInspectorName` and `handleAddInspector`. */
  class InspectorForm {
    var newInspectorName: string

    constructor ()
      ensures newInspectorName == ""
    {
      newInspectorName := "";
    }

    /** Add the trimmed name and clear the field, or do nothing when the
        name is blank. */
    method HandleAddInspector(store: App.Store, newId: Id)
      modifies this, store
      ensures NameToAdd(old(newInspectorName)).None? ==>
                store.State() == old(store.State()) && newInspectorName == old(newInspectorName)
      ensures NameToAdd(old(newInspectorName)).Some? ==>
                store.State() == old(store.State()).(inspectors := old(store.inspectors) + [
                  Inspector(newId, NameToAdd(old(newInspectorName)).value)])
                && newInspectorName == ""
    {
      var name := NameToAdd(newInspectorName);
      if name.Some? {
        store.AddInspector(name.value, newId);
        newInspectorName := "";
      }
    }
  }
}
