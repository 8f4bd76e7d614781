/** The administrator's dashboard: per-inspector scaffold counts, the list of
    open reminders with their inspector's name, and the reminder form that
    schedules a reminder for a chosen inspector. */
module SuperAdminDashboard {
  import opened Types
  import opened Seqs
  import opened Sorting
  import App

  // ---------------------------------------------------------------------
  // Inspector statistics

  /** An inspector with the number of scaffolds it owns. */
  datatype InspectorStat = InspectorStat(id: Id, name: string, scaffoldCount: nat)

  /** `inspectorStats`: one entry per inspector, in order. */
  function InspectorStats(inspectors: seq<Inspector>, scaffolds: seq<Scaffold>): (r: seq<InspectorStat>)
    ensures |r| == |inspectors|
    ensures forall k :: 0 <= k < |r| ==>
              r[k].id == inspectors[k].id && r[k].name == inspectors[k].name
              && r[k].scaffoldCount == |Filter(scaffolds, App.OwnedBy(inspectors[k].id))|
  {
    seq(|inspectors|, k requires 0 <= k < |inspectors| =>
      InspectorStat(inspectors[k].id, inspectors[k].name, Count(scaffolds, App.OwnedBy(inspectors[k].id))))
  }

  function Ids(inspectors: seq<Inspector>): (r: seq<Id>)
    ensures |r| == |inspectors|
  {
    seq(|inspectors|, k requires 0 <= k < |inspectors| => inspectors[k].id)
  }

  ghost predicate DistinctIds(inspectors: seq<Inspector>)
  {
    forall i, j :: 0 <= i < j < |inspectors| ==> inspectors[i].id != inspectors[j].id
  }

  /** The scaffold belongs to one of the listed inspectors. */
  function OwnedByAny(inspectors: seq<Inspector>): Scaffold -> bool
  {
    (s: Scaffold) => s.inspectorId in Ids(inspectors)
  }

  function TotalScaffoldCount(stats: seq<InspectorStat>): nat
  {
    if stats == [] then 0 else TotalScaffoldCount(stats[..|stats| - 1]) + stats[|stats| - 1].scaffoldCount
  }

  /** With distinct inspector ids, the per-inspector counts add up to the
      number of scaffolds owned by some listed inspector: no scaffold is
      counted twice. */
  lemma {:induction false} StatsSum(inspectors: seq<Inspector>, scaffolds: seq<Scaffold>)
    requires DistinctIds(inspectors)
    ensures TotalScaffoldCount(InspectorStats(inspectors, scaffolds)) == Count(scaffolds, OwnedByAny(inspectors))
  {
    if inspectors == [] {
      FilterNone(scaffolds, OwnedByAny(inspectors));
    } else {
      var init, last := inspectors[..|inspectors| - 1], inspectors[|inspectors| - 1];
      StatsInit(inspectors, scaffolds);
      StatsSum(init, scaffolds);
      LastOwnerDisjoint(inspectors);
      CountDisjointUnion(scaffolds, OwnedByAny(init), App.OwnedBy(last.id), OwnedByAny(inspectors));
    }
  }

  lemma StatsInit(inspectors: seq<Inspector>, scaffolds: seq<Scaffold>)
    requires inspectors != []
    ensures var stats := InspectorStats(inspectors, scaffolds);
            stats[..|stats| - 1] == InspectorStats(inspectors[..|inspectors| - 1], scaffolds)
  {
  }

  /** With distinct ids, a scaffold owned by the last inspector is owned by
      none of the others, and "owned by a listed inspector" splits into the
      two cases. */
  lemma LastOwnerDisjoint(inspectors: seq<Inspector>)
    requires inspectors != [] && DistinctIds(inspectors)
    ensures var init, last := inspectors[..|inspectors| - 1], inspectors[|inspectors| - 1];
            && (forall x: Scaffold :: !(OwnedByAny(init)(x) && App.OwnedBy(last.id)(x)))
            && (forall x: Scaffold :: OwnedByAny(inspectors)(x) == (OwnedByAny(init)(x) || App.OwnedBy(last.id)(x)))
  {
    var init, last := inspectors[..|inspectors| - 1], inspectors[|inspectors| - 1];
    assert Ids(inspectors) == Ids(init) + [last.id];
    forall x: Scaffold ensures !(OwnedByAny(init)(x) && App.OwnedBy(last.id)(x)) {
      if x.inspectorId in Ids(init) {
        var k :| 0 <= k < |init| && Ids(init)[k] == x.inspectorId;
        assert inspectors[k].id != inspectors[|inspectors| - 1].id;
      }
    }
  }

  /** When every scaffold belongs to a listed inspector (as it does when
      scaffolds are only added for a selected inspector and removed with
      their owner), the counts add up to the total. */
  lemma StatsCoverAllScaffolds(inspectors: seq<Inspector>, scaffolds: seq<Scaffold>)
    requires DistinctIds(inspectors)
    requires forall k :: 0 <= k < |scaffolds| ==> scaffolds[k].inspectorId in Ids(inspectors)
    ensures TotalScaffoldCount(InspectorStats(inspectors, scaffolds)) == |scaffolds|
  {
    StatsSum(inspectors, scaffolds);
    FilterAll(scaffolds, OwnedByAny(inspectors));
  }

  // ---------------------------------------------------------------------
  // Active reminders

  /** The fallback name `'ناشناس'` ("unknown"). */
  const UnknownName: string := "\U{0646}\U{0627}\U{0634}\U{0646}\U{0627}\U{0633}"

  /** A reminder with the name of its inspector. */
  datatype ActiveReminder = ActiveReminder(reminder: Reminder, inspectorName: string)

  /** `inspectors.find(i => i.id === r.inspectorId)?.name || 'ناشناس'`: the
      first matching inspector's name, or the fallback when there is none or
      its name is empty. */
  function InspectorNameFor(inspectors: seq<Inspector>, r: Reminder): (name: string)
    ensures (forall k :: 0 <= k < |inspectors| ==> inspectors[k].id != r.inspectorId) ==> name == UnknownName
    ensures forall k :: 0 <= k < |inspectors| && inspectors[k].id == r.inspectorId
                        && (forall m :: 0 <= m < k ==> inspectors[m].id != r.inspectorId) ==>
              name == if inspectors[k].name != "" then inspectors[k].name else UnknownName
    ensures name != ""
  {
    match FindInspectorIndex(inspectors, r.inspectorId)
    case None => UnknownName
    case Some(k) => if inspectors[k].name != "" then inspectors[k].name else UnknownName
  }

  function WithNames(inspectors: seq<Inspector>, reminders: seq<Reminder>): (r: seq<ActiveReminder>)
    ensures |r| == |reminders|
  {
    seq(|reminders|, k requires 0 <= k < |reminders| =>
      ActiveReminder(reminders[k], InspectorNameFor(inspectors, reminders[k])))
  }

  predicate ActiveBefore(a: ActiveReminder, b: ActiveReminder)
  {
    TargetBefore(a.reminder, b.reminder)
  }

  /** `activeReminders`: the open reminders with their inspector's name,
      earliest target first. */
  function ActiveReminders(reminders: seq<Reminder>, inspectors: seq<Inspector>): seq<ActiveReminder>
  {
    SortBy(WithNames(inspectors, Filter(reminders, IsOpen)), ActiveBefore)
  }

  lemma ActiveBeforeIsStrictWeakOrder()
    ensures StrictWeakOrder(ActiveBefore)
  {
  }

  /** The active list holds exactly the open reminders, each once per
      occurrence, named after its inspector, in ascending target order. */
  lemma ActiveRemindersSpec(reminders: seq<Reminder>, inspectors: seq<Inspector>)
    ensures var r := ActiveReminders(reminders, inspectors);
            && multiset(r) == multiset(WithNames(inspectors, Filter(reminders, IsOpen)))
            && (forall e :: e in r ==>
                  e.reminder in reminders && !e.reminder.isCompleted
                  && e.inspectorName == InspectorNameFor(inspectors, e.reminder))
            && (forall k :: 0 <= k < |reminders| && !reminders[k].isCompleted ==>
                  ActiveReminder(reminders[k], InspectorNameFor(inspectors, reminders[k])) in r)
            && (forall i, j :: 0 <= i < j < |r| ==> r[i].reminder.targetDateTime <= r[j].reminder.targetDateTime)
  {
    var named := WithNames(inspectors, Filter(reminders, IsOpen));
    ActiveBeforeIsStrictWeakOrder();
    SortBySorted(named, ActiveBefore);
    SortByPermutes(named, ActiveBefore);
    ActiveRemindersSound(reminders, inspectors);
    ActiveRemindersComplete(reminders, inspectors);
  }

  lemma ActiveRemindersSound(reminders: seq<Reminder>, inspectors: seq<Inspector>)
    ensures forall e :: e in ActiveReminders(reminders, inspectors) ==>
              e.reminder in reminders && !e.reminder.isCompleted
              && e.inspectorName == InspectorNameFor(inspectors, e.reminder)
  {
    var open := Filter(reminders, IsOpen);
    var named := WithNames(inspectors, open);
    var r := ActiveReminders(reminders, inspectors);
    SortByPermutes(named, ActiveBefore);
    forall e | e in r
      ensures e.reminder in reminders && !e.reminder.isCompleted
              && e.inspectorName == InspectorNameFor(inspectors, e.reminder)
    {
      assert e in multiset(named);
      var k :| 0 <= k < |named| && named[k] == e;
      assert e.reminder == open[k];
    }
  }

  lemma ActiveRemindersComplete(reminders: seq<Reminder>, inspectors: seq<Inspector>)
    ensures forall k :: 0 <= k < |reminders| && !reminders[k].isCompleted ==>
              ActiveReminder(reminders[k], InspectorNameFor(inspectors, reminders[k])) in ActiveReminders(reminders, inspectors)
  {
    var open := Filter(reminders, IsOpen);
    var named := WithNames(inspectors, open);
    var r := ActiveReminders(reminders, inspectors);
    SortByPermutes(named, ActiveBefore);
    forall k | 0 <= k < |reminders| && !reminders[k].isCompleted
      ensures ActiveReminder(reminders[k], InspectorNameFor(inspectors, reminders[k])) in r
    {
      assert IsOpen(reminders[k]);
      var m :| 0 <= m < |open| && open[m] == reminders[k];
      assert named[m] in multiset(r);
    }
  }

  // ---------------------------------------------------------------------
  // Reminder form

  /** `newReminderData` of the administrator's reminder form. */
  class ReminderForm {
    var inspectorId: Id
    var date: string
    var time: string
    var unit: string
    var tagNumber: string
    var notes: string
    /** The date and time `initialReminderState` formatted when the module loaded. */
    const initialDate: string
    const initialTime: string

    constructor (initialDate: string, initialTime: string)
      ensures this.initialDate == initialDate && this.initialTime == initialTime
      ensures inspectorId == "" && date == initialDate && time == initialTime
      ensures unit == "" && tagNumber == "" && notes == ""
    {
      this.initialDate, this.initialTime := initialDate, initialTime;
      inspectorId, date, time := "", initialDate, initialTime;
      unit, tagNumber, notes := "", "", "";
    }

    /** `handleAddReminder`. Without a chosen inspector the form reports it
        and adds nothing; a date and time that do not parse are reported and
        add nothing; otherwise exactly one reminder for the chosen inspector
        is added and the form is reset except for the inspector.
        `parseDateTime` stands for the Jalali `parse`, `setHours` and
        `toISOString` together. */
    method HandleAddReminder(store: App.Store, parseDateTime: (string, string) -> Option<int>, newId: Id)
      returns (outcome: Outcome)
      modifies this, store
      ensures old(inspectorId) == "" ==>
                outcome == MissingInspector && store.State() == old(store.State())
      ensures old(inspectorId) != "" && parseDateTime(old(date), old(time)).None? ==>
                outcome == InvalidDateTime && store.State() == old(store.State())
      ensures old(inspectorId) != "" && parseDateTime(old(date), old(time)).Some? ==>
                && outcome == Added
                && store.State() == old(store.State()).(reminders := old(store.reminders) + [
                     App.NewReminder(ReminderDraft(old(inspectorId), parseDateTime(old(date), old(time)).value,
                                                       old(unit), old(tagNumber), old(notes)), newId)])
                && inspectorId == old(inspectorId) && date == initialDate && time == initialTime
                && unit == "" && tagNumber == "" && notes == ""
      ensures outcome != Added ==>
                inspectorId == old(inspectorId) && date == old(date) && time == old(time)
                && unit == old(unit) && tagNumber == old(tagNumber) && notes == old(notes)
    {
      if inspectorId == "" {
        return MissingInspector;
      }
      var target := parseDateTime(date, time);
      if target.None? {
        return InvalidDateTime;
      }
      store.AddReminder(ReminderDraft(inspectorId, target.value, unit, tagNumber, notes), newId);
      date, time := initialDate, initialTime;
      unit, tagNumber, notes := "", "", "";
      outcome := Added;
    }
  }
}
