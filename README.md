# Scaffold inspection tracker — verified model of the core

This project models the business logic of a record-keeping application for
scaffold safety inspections. The application itself is written in React and
TypeScript. Its users are inspectors, who register scaffolds carrying a
green, yellow or red safety tag and answer a fixed inspection checklist, and a
super administrator, who sees every inspector's data.

The model covers:

- **Tag policy and smart reminders** (`Dashboard`).
  - Whole days since inspection.
  - The Green > 30 / Yellow > 7 rule and the overdue days derived from it.
  - The flagged list, sorted under the `requestSort` state machine through an in-place stable sort.
- **Dashboard aggregations** (`Dashboard`).
  - The three tag counts.
  - The per-unit chart, built by a reduce in first-occurrence order.
  - The manual reminders that are due now.
- **The record store** (`App.Store`, a class).
  - Three sequences: inspectors, scaffolds, reminders.
  - Three selectors: the current inspector, admin mode, and the inspector the admin is viewing.
  - Every operation that changes them, including the cascade delete of an inspector.
  - The derived values: the selected inspector, their scaffolds, and the two badge counts.
- **The administrator's dashboard** (`SuperAdminDashboard`).
  - Per-inspector scaffold counts.
  - The open reminders with their inspector's name.
  - The validated reminder form.
- **Settings** (`Settings`).
  - The upcoming reminders.
  - The inspector's reminder form.
  - The add-inspector form, which trims the name.
- **The scaffold list** (`ScaffoldList`).
  - The case-insensitive search over four fields.
  - The checklist normalisation done when the checklist is opened.
  - The save dispatch to update or add.
- **The checklist dialog** (`ChecklistModal`, a class).
  - Per-question status and description edits on a working copy.
  - The submit, which saves the copy back.

Supporting modules:

| module | what it provides |
|---|---|
| `Seqs` | JavaScript's `filter` and `.length` |
| `Sorting` | `Array.prototype.sort`, which is stable; modelled as a stable insertion sort `SortBy`, plus an in-place version on an `array` |
| `Text` | `trim`, `includes`, and string `<` |
| `Types` | the records |

How the model represents things the source takes from its environment:

- **Instants** are integer milliseconds.
  - `Math.floor` over a positive divisor is Dafny's `/`. This also holds for inspection dates in the future.
  - A reminder's `targetDateTime` is held as the instant, not as its ISO string.
- **Inputs from outside** become parameters:
  - the current time `now`;
  - new ids (`Date.now().toString()`);
  - the answer of `window.confirm`;
  - the number of checklist questions;
  - `toLowerCase`;
  - the Jalali date parsing together with `setHours` and `toISOString`, as `(date, time) -> Option<int>`.
- **`alert`** becomes an `Outcome` value.
- **A missing id.** JavaScript treats `null` and `''` as a missing id (truthiness); `Types.Present` models this.

The model follows the code in two places where the intended design reads differently:

- A scaffold's `checklist` is optional (`Option`). Older records may lack one, and both `scaffold.checklist || []` and the test in `handleOpenChecklistModal` guard for that.
- The administrator's reminder list falls back to the unknown-inspector name also when the matching inspector's name is empty, because of `?.name || 'ناشناس'`.

## Model

| member | source | states |
|---|---|---|
| Types.DefaultChecklist | App.tsx:96-100 | the default checklist has one item per question; item k answers question k+1 with "not applicable" and an empty description |
| Types.WellFormedChecklistIds | App.tsx:96-100 | in a well-formed checklist the question ids are distinct and lie in 1..N |
| Types.FindInspectorIndex | App.tsx:38 | `find` stops at the first inspector with the id, and finds nothing exactly when no inspector has it |
| Types.TargetBeforeIsStrictWeakOrder | Dashboard.tsx:117 | the target-time comparator is a consistent ordering, so the stable-sort lemmas apply to it |
| Types.TargetTies | Dashboard.tsx:117 | two reminders tie under the comparator exactly when their targets are equal |
| Seqs.Filter | App.tsx:44 | `filter` keeps exactly the elements that satisfy the test and never lengthens the list |
| Seqs.FilterIsSubsequence | App.tsx:77-79 | filtering keeps the relative order of the remaining elements |
| Seqs.FilterFilter | App.tsx:50 | two successive filters equal one filter by the conjunction |
| Seqs.CountDisjointUnion | SuperAdminDashboard.tsx:34 | counts under two tests that never both hold add up to the count under either |
| Sorting.InsertPermutes | Dashboard.tsx:100-108 | inserting into the sorted prefix adds exactly that one element |
| Sorting.SortByPermutes | Dashboard.tsx:100-108 | the sort returns a permutation of its input |
| Sorting.SortBySorted | Dashboard.tsx:100-108 | under a consistent comparator, no later element goes before an earlier one |
| Sorting.SortByStable | Dashboard.tsx:100-108 | elements that tie keep their input order (stability) |
| Sorting.InsertInPlace | Dashboard.tsx:100 | one in-place step moves an element left into the sorted prefix, leaving the rest of the array alone |
| Sorting.SortStepInPlace | Dashboard.tsx:100 | after one more in-place step the array is the sort of one more input element followed by the untouched rest |
| Sorting.SortInPlace | Dashboard.tsx:100 | sorting the array in place leaves it holding the stable sort of its old contents |
| Text.LeadingWhitespaceSpec | Settings.tsx:47 | the leading count covers only whitespace and stops at the first character that is not whitespace |
| Text.TrailingWhitespaceSpec | Settings.tsx:47 | the trailing count covers only whitespace and stops at the last character that is not whitespace |
| Text.TrimSpec | Settings.tsx:47-48 | `trim` is the middle slice of its input, with only whitespace cut off on each side; a non-empty result starts and ends with a non-space; the result is empty exactly when the input is all whitespace |
| Text.ContainsAt | ScaffoldList.tsx:41-44 | `includes` holds whenever the needle occurs at some position |
| Text.StrLessIrreflexive | Dashboard.tsx:101-105 | no string is below itself under `<` |
| Text.StrLessTransitive | Dashboard.tsx:101-105 | string `<` is transitive |
| Text.StrLessTotal | Dashboard.tsx:101-105 | of two different strings one is below the other |
| Text.StrLessAsymmetric | Dashboard.tsx:101-105 | two strings are never each below the other |
| Text.StrLessNegTransitive | Dashboard.tsx:101-105 | string `<=` is transitive, so equal units tie consistently |
| Dashboard.DaysSince | Dashboard.tsx:83 | the whole days elapsed are the floor: `days` full days fit into the difference and `days + 1` do not |
| Dashboard.Evaluate | Dashboard.tsx:84-94 | Green is flagged iff days > 30, with overdue days − 30; Yellow is flagged iff days > 7, with overdue days − 7; Red is never flagged; a flagged scaffold is overdue by at least one day and an unflagged one by zero |
| Dashboard.AnnotateScaffold | Dashboard.tsx:81-96 | the callback with its two mutable locals computes the policy's verdict, keeps the scaffold unchanged, and never flags Red |
| Dashboard.NextSortConfig | Dashboard.tsx:121-129 | the requested key becomes the key; the same key flips the direction; another key sorts ascending |
| Dashboard.NextSortConfigInvolution | Dashboard.tsx:121-129 | requesting the current key twice restores the configuration |
| Dashboard.SortState.constructor | Dashboard.tsx:54 | the dashboard starts sorted by overdue days, descending |
| Dashboard.SortState.RequestSort | Dashboard.tsx:121-129 | the handler moves the state as the sort state machine says |
| Dashboard.KeyLessAsymmetric | Dashboard.tsx:101-105 | the two comparator tests (`<` and `>`) never both hold |
| Dashboard.BeforeTies | Dashboard.tsx:100-108 | the comparator returns 0 exactly when the two sort keys are equal |
| Dashboard.KeyLessConsistent | Dashboard.tsx:101-105 | both keys order consistently: irreflexive, transitive, with transitive ties |
| Dashboard.BeforeIsStrictWeakOrder | Dashboard.tsx:100-108 | the comparator is consistent for either key and direction |
| Dashboard.ComputeSmartReminders | Dashboard.tsx:78-111 | the map, the filter and the in-place sort compute exactly the smart-reminder list |
| Dashboard.AnnotatedConcat | Dashboard.tsx:80-97 | the map distributes over concatenation |
| Dashboard.ProcessedIsFlaggedInOrder | Dashboard.tsx:80-98 | the list before sorting is the annotation of exactly the flagged scaffolds, in input order |
| Dashboard.SmartRemindersExactlyFlagged | Dashboard.tsx:80-98 | the list is a permutation of the flagged scaffolds with their two added fields: none added, none omitted, scaffold fields untouched |
| Dashboard.SmartRemindersNeverRed | Dashboard.tsx:87-98 | a Red scaffold never appears, whatever its age |
| Dashboard.SmartRemindersOrdered | Dashboard.tsx:100-108 | the list is non-decreasing in its key when ascending and non-increasing when descending |
| Dashboard.SmartRemindersStable | Dashboard.tsx:100-108 | entries with equal keys keep their input order, in either direction |
| Dashboard.GreenAfterFortyFiveDays | Dashboard.tsx:83-90 | a Green tag inspected 45 days ago is flagged, 15 days overdue |
| Dashboard.YellowAfterFiveDays | Dashboard.tsx:91-94 | a Yellow tag inspected 5 days ago is not flagged |
| Dashboard.GreenThresholdIsStrict | Dashboard.tsx:83-90 | a Green tag is flagged from 31 whole days on, and not at 30 days and any part of a day |
| Dashboard.TagCountsPartition | Dashboard.tsx:49-52 | the Green, Yellow and Red counts add up to the number of scaffolds |
| Dashboard.FirstOccurrencesSpec | Dashboard.tsx:67-75 | the distinct units hold every unit, nothing else, each once |
| Dashboard.FirstOccurrencesOrder | Dashboard.tsx:67-75 | the distinct units appear in order of first occurrence |
| Dashboard.FindUnit | Dashboard.tsx:68 | `acc.find` locates a bar with that name, or finds none exactly when there is none |
| Dashboard.TotalCountIncrement | Dashboard.tsx:70 | bumping one bar raises the total by one |
| Dashboard.AddToChartInvariant | Dashboard.tsx:68-74 | one reduce step keeps the chart equal to the chart of the scaffolds seen so far |
| Dashboard.ChartStep | Dashboard.tsx:68-74 | the chart of a prefix, updated with the next scaffold's unit, is the chart of the prefix one longer |
| Dashboard.ChartData | Dashboard.tsx:67-75 | the chart has one bar per distinct unit in first-occurrence order; each bar counts that unit's scaffolds; the counts add up to the total |
| Dashboard.PendingManualRemindersSpec | Dashboard.tsx:113-118 | the due-now list is a permutation of exactly the open reminders whose target is not after `now`, ascending by target |
| App.NewScaffoldFields | App.tsx:89-101 | a new scaffold carries the form's fields, the new id, the target owner, and an all-"not applicable" checklist of N items |
| App.NewReminderFields | App.tsx:113-118 | a new reminder carries the supplied fields and the new id, and is not completed |
| App.ReplaceScaffold | App.tsx:106 | `updateScaffold`'s map replaces the entries with the id and keeps the length and every other entry |
| App.ReplaceScaffoldIdempotent | App.tsx:106 | replacing twice with the same record is replacing once |
| App.ReplaceScaffoldEffect | App.tsx:106 | an unknown id changes nothing; a known id puts the record in; no entry with the id keeps an old value |
| App.SetCompleted | App.tsx:127 | `updateReminderStatus`'s map sets the flag on the entries with the id and keeps every other entry |
| App.SetCompletedChangesOnlyFlag | App.tsx:127 | only `isCompleted` of the matching entries changes, and applying it twice equals applying it once |
| App.CompletedLeavesPending | App.tsx:126-128 | a reminder marked done leaves the dashboard's due-now list |
| App.CurrentInspector | App.tsx:35-39 | the selected inspector has the target id, and there is none exactly when no target is set or no inspector has it |
| App.InspectorScaffolds | App.tsx:41-45 | exactly the target inspector's scaffolds; none without a target |
| App.RemindersCount | App.tsx:47-57 | the badge is 0 without a current inspector |
| App.BadgeRuleIsPolicy | App.tsx:50-56 | the badge's own Green > 30 / Yellow > 7 test flags the same scaffolds as the dashboard's policy |
| App.RemindersCountIsSmartReminderCount | App.tsx:47-57 | with a current inspector, the badge equals the length of the dashboard's smart-reminder list for the same scaffolds and instant, under any sort |
| App.PendingManualRemindersCount | App.tsx:59-67 | the badge is 0 without a current inspector |
| App.PendingCountIsDashboardCount | App.tsx:59-67 | with a current inspector, the badge equals the length of the due-now list the dashboard shows for the inspector's reminders |
| App.Store.constructor | App.tsx:16-24 | the store starts with empty collections, no inspector selected, not in admin mode |
| App.Store.AddInspector | App.tsx:70-73 | appends one inspector with the new id; nothing else changes |
| App.Store.DeleteInspector | App.tsx:75-87 | if not confirmed, nothing changes; if confirmed, removes exactly the inspector and the scaffolds and reminders it owns, keeping the others' order, and clears only the selectors that named it |
| App.Store.AddScaffold | App.tsx:89-103 | without a target inspector, nothing changes; otherwise appends exactly one scaffold owned by the target (the viewed inspector in admin mode, the current one otherwise) |
| App.Store.UpdateScaffold | App.tsx:105-107 | replaces the entries with the record's id; nothing else changes |
| App.Store.DeleteScaffold | App.tsx:109-111 | removes exactly the scaffolds with the id; nothing else changes |
| App.Store.AddReminder | App.tsx:113-120 | appends one open reminder with the supplied fields; nothing else changes |
| App.Store.DeleteReminder | App.tsx:122-124 | removes exactly the reminders with the id; nothing else changes |
| App.Store.UpdateReminderStatus | App.tsx:126-128 | sets the completion flag of the reminders with the id; nothing else changes |
| App.Store.ResetApp | App.tsx:130-140 | if confirmed, empties all three collections and clears the selectors; otherwise nothing changes |
| App.Store.Logout | App.tsx:142-147 | clears the three selectors and keeps the records |
| App.Store.SelectInspector | App.tsx:154 | logs in as that inspector; nothing else changes |
| App.Store.LoginAdmin | App.tsx:154 | switches admin mode on; nothing else changes |
| App.Store.SetAdminViewingInspector | App.tsx:176 | sets or (with the back button) clears the viewed inspector; nothing else changes |
| App.DeletedInspectorHasNothing | App.tsx:75-87 | after the cascade, the deleted inspector has no scaffolds and both its badges are 0 |
| SuperAdminDashboard.InspectorStats | SuperAdminDashboard.tsx:32-37 | one entry per inspector, in order, with id and name kept, counting the scaffolds it owns |
| SuperAdminDashboard.StatsSum | SuperAdminDashboard.tsx:32-37 | with distinct ids, the per-inspector counts add up to the number of scaffolds owned by a listed inspector |
| SuperAdminDashboard.StatsCoverAllScaffolds | SuperAdminDashboard.tsx:32-37 | when every scaffold has a listed owner, the counts add up to the number of scaffolds |
| SuperAdminDashboard.InspectorNameFor | SuperAdminDashboard.tsx:75 | the first matching inspector's name, or the fallback when none matches or its name is empty; never empty |
| SuperAdminDashboard.ActiveBeforeIsStrictWeakOrder | SuperAdminDashboard.tsx:76 | the list's comparator is consistent |
| SuperAdminDashboard.ActiveRemindersSpec | SuperAdminDashboard.tsx:72-77 | a permutation of exactly the open reminders, each named after its inspector, ascending by target |
| SuperAdminDashboard.ReminderForm.constructor | SuperAdminDashboard.tsx:17-24 | the form starts with no inspector, today's date and time, and empty fields |
| SuperAdminDashboard.ReminderForm.HandleAddReminder | SuperAdminDashboard.tsx:44-70 | no inspector chosen: reports it, adds nothing, form untouched; an unparseable date or time: reports it, adds nothing, form untouched; otherwise adds exactly one reminder for the chosen inspector with the form's fields and resets the form except the inspector |
| Settings.UpcomingRemindersSpec | Settings.tsx:83-87 | a permutation of exactly the open reminders, past-due ones included, ascending by target |
| Settings.PendingAreUpcoming | Settings.tsx:83-87 | every reminder due now is also upcoming |
| Settings.CompletedLeavesUpcoming | Settings.tsx:83-87 | a reminder marked done leaves the upcoming list |
| Settings.ReminderForm.constructor | Settings.tsx:19-25 | the form starts with today's date and time and empty fields |
| Settings.ReminderForm.HandleAddReminder | Settings.tsx:58-81 | no logged-in inspector: does nothing; an unparseable date or time: reports it, adds nothing, form untouched; otherwise adds exactly one reminder for the logged-in inspector with the form's fields and resets the form |
| Settings.NameToAdd | Settings.tsx:47-48 | nothing exactly when the input is empty or only spaces; otherwise a non-empty name without surrounding whitespace that occurs in the input |
| Settings.InspectorForm.constructor | Settings.tsx:38 | the name field starts empty |
| Settings.InspectorForm.HandleAddInspector | Settings.tsx:45-51 | a blank name changes nothing; otherwise adds one inspector with the trimmed name and clears the field (the selection screen's `handleAdd`, App.tsx:277-282, does the same) |
| ScaffoldList.FilteredScaffolds | ScaffoldList.tsx:39-46 | a scaffold is kept exactly when the lower-cased filter occurs in its lower-cased unit, location, tag number or permit number |
| ScaffoldList.FilteredIsSubsequence | ScaffoldList.tsx:40 | the filtered list keeps the input's order |
| ScaffoldList.EmptyFilterKeepsAll | ScaffoldList.tsx:40-45 | an empty filter keeps every scaffold |
| ScaffoldList.NormalizeChecklist | ScaffoldList.tsx:67-80 | a checklist of N items is kept; anything else becomes the N default items; no other field changes; the result always has N items |
| ScaffoldList.NormalizeChecklistIdempotent | ScaffoldList.tsx:67-80 | normalising twice is normalising once |
| ScaffoldList.HandleSave | ScaffoldList.tsx:58-65 | a record with an id is updated, the data of a new one is added; exactly one of the two happens |
| ScaffoldList.HandleSaveChecklist | ScaffoldList.tsx:87-90 | the edited scaffold replaces the stored one |
| ChecklistModal.SetStatus | ChecklistModal.tsx:21 | sets the status of the items for the question, keeps their descriptions, leaves every other item, the length and the order unchanged |
| ChecklistModal.SetDescription | ChecklistModal.tsx:25 | sets only the description of the items for the question; everything else unchanged |
| ChecklistModal.EditOfAbsentQuestion | ChecklistModal.tsx:20-26 | an edit for a question not on the list leaves it unchanged |
| ChecklistModal.LastEditWins | ChecklistModal.tsx:20-26 | a second edit of the same question overrides the first |
| ChecklistModal.EditsCommute | ChecklistModal.tsx:20-26 | a status edit and a description edit commute |
| ChecklistModal.EditsKeepWellFormed | ChecklistModal.tsx:20-26 | edits keep a well-formed checklist well formed |
| ChecklistModal.OpenedChecklistRenders | ChecklistModal.tsx:33 | a checklist opened from the list has N items, so the dialog shows whenever there are questions |
| ChecklistModal.ChecklistEditor.constructor | ChecklistModal.tsx:15-18 | the working list starts as the scaffold's checklist, or empty when it has none |
| ChecklistModal.ChecklistEditor.HandleStatusChange | ChecklistModal.tsx:20-22 | the working list becomes its status edit |
| ChecklistModal.ChecklistEditor.HandleDescriptionChange | ChecklistModal.tsx:24-26 | the working list becomes its description edit |
| ChecklistModal.ChecklistEditor.HandleSubmit | ChecklistModal.tsx:28-31 | the saved scaffold is the original with only its checklist replaced by the working list |
| ChecklistModal.UneditedSubmitIsIdentity | ChecklistModal.tsx:30 | submitting an unedited dialog saves back the scaffold it was opened on |

## Left out

- Rendering: all JSX, charts, icons, the open/closed section toggles and modal visibility. They compute nothing.
- Sidebar.tsx: navigation and the display of badges. It only presents values whose computation is modelled.
- main.js: window and process bootstrap of the desktop shell.
- ScaffoldFormModal.tsx: form UI. Its output is taken as the `SaveInput` handed to `ScaffoldList.HandleSave`.
- Navigation state: `currentView`, and the effect that switches views on login. It only chooses which screen is shown.
- Persistence through `useLocalStorage`. The store holds the values, not their storage.
- Export and print (`exportToExcel`, `exportToPdf`, the Word exports, `printTable`): foreign calls.
- `window.confirm` and `alert`: not modelled as calls.
  - The confirmation answer is a boolean parameter.
  - The alerts are `Outcome` values.
- Date internals: the Jalali parser, `split(':').map(Number)`, `setHours` and `toISOString`. They are one partial `parseDateTime` parameter, because calendar arithmetic is outside the core. An invalid time makes the same path fail as an invalid date, as the shared `catch` does.
- `format` of today's date and time for the reminder forms' initial state: display formatting. The formatted strings are constructor parameters.
- `toLowerCase`: Unicode case mapping is outside the core, so it is a function parameter.
- Id generation: ids are parameters. `Date.now().toString()` does not make them unique, and the model does not assume they are.
- The number of checklist questions: it comes from the question list, which is not part of this model, so it is a parameter.
- `useMemo` caching and the clock that memos capture. Every derived value takes `now` explicitly, so a stale memoised `now` is not modelled.
- Text.StrLess: compares characters by code point, while JavaScript compares UTF-16 code units. The two agree except for characters outside the Basic Multilingual Plane.
- targetDateTime: a reminder stores the instant as an integer, not an ISO-8601 string. The comparator `new Date(a) - new Date(b)` on that string is exactly the integer comparison.
- Dashboard.ChartData: the reduce mutates accumulator objects in place (`unit.count += 1`, `acc.push`). The model rebuilds the bar sequence by value at each step (`AddToChart`), so the aliasing of the mutated bar objects is not modelled.
- handleReminderChange in both reminder forms: a field-by-field update of form state, modelled by the forms' fields being assignable.
