/** The scaffold list: the search filter, the checklist normalisation done
    when the checklist is opened, and the dispatch of a saved form to
    update or add. */
module ScaffoldList {
  import opened Types
  import opened Seqs
  import Text
  import App

  /** The search test: the lower-cased filter occurs in the lower-cased
      unit, location, tag number or permit number. `lower` stands for
      `toLowerCase`. */
  predicate Matches(s: Scaffold, filter: string, lower: string -> string)
  {
    var f := lower(filter);
    || Text.Contains(lower(s.unit), f)
    || Text.Contains(lower(s.location), f)
    || Text.Contains(lower(s.tagNumber), f)
    || Text.Contains(lower(s.permitNumber), f)
  }

  function MatchesFilter(filter: string, lower: string -> string): Scaffold -> bool
  {
    (s: Scaffold) => Matches(s, filter, lower)
  }

  /** `filteredScaffolds`: a scaffold is kept exactly when it matches. */
  function FilteredScaffolds(scaffolds: seq<Scaffold>, filter: string, lower: string -> string): (r: seq<Scaffold>)
    ensures |r| <= |scaffolds|
    ensures forall k :: 0 <= k < |r| ==> r[k] in scaffolds && Matches(r[k], filter, lower)
    ensures forall k :: 0 <= k < |scaffolds| && Matches(scaffolds[k], filter, lower) ==> scaffolds[k] in r
  {
    Filter(scaffolds, MatchesFilter(filter, lower))
  }

  /** The filtered list keeps the input's order. */
  lemma FilteredIsSubsequence(scaffolds: seq<Scaffold>, filter: string, lower: string -> string)
    ensures IsSubsequence(FilteredScaffolds(scaffolds, filter, lower), scaffolds)
  {
    FilterIsSubsequence(scaffolds, MatchesFilter(filter, lower));
  }

  /** An empty filter keeps every scaffold (the empty string lower-cases to
      itself and occurs in every string). */
  lemma EmptyFilterKeepsAll(scaffolds: seq<Scaffold>, lower: string -> string)
    requires lower("") == ""
    ensures FilteredScaffolds(scaffolds, "", lower) == scaffolds
  {
    forall k | 0 <= k < |scaffolds| ensures MatchesFilter("", lower)(scaffolds[k]) {
      assert [] <= lower(scaffolds[k].unit);
    }
    FilterAll(scaffolds, MatchesFilter("", lower));
  }

  /** `handleOpenChecklistModal`: keep a checklist that has one item per
      question; otherwise put in a default checklist. No other field changes. */
  function NormalizeChecklist(s: Scaffold, questionCount: nat): (r: Scaffold)
    ensures r.(checklist := s.checklist) == s
    ensures s.checklist.Some? && |s.checklist.value| == questionCount ==> r == s
    ensures !(s.checklist.Some? && |s.checklist.value| == questionCount) ==>
              r.checklist == Some(DefaultChecklist(questionCount))
    ensures r.checklist.Some? && |r.checklist.value| == questionCount
  {
    if s.checklist.Some? && |s.checklist.value| == questionCount then s
    else s.(checklist := Some(DefaultChecklist(questionCount)))
  }

  /** Normalising twice is normalising once. */
  lemma NormalizeChecklistIdempotent(s: Scaffold, questionCount: nat)
    ensures NormalizeChecklist(NormalizeChecklist(s, questionCount), questionCount) == NormalizeChecklist(s, questionCount)
  {
  }

  /** What the form modal hands to `handleSave`: an edited record (it has
      an `id`) or the data of a new one. */
  datatype SaveInput = Existing(scaffold: Scaffold) | New(draft: ScaffoldDraft)

  /** `handleSave`: a record with an id goes to `updateScaffold`, anything
      else to `addScaffold`; exactly one of the two happens. */
  method HandleSave(store: App.Store, data: SaveInput, newId: Id, questionCount: nat)
    modifies store
    ensures data.Existing? ==>
              store.State() == old(store.State()).(scaffolds := App.ReplaceScaffold(old(store.scaffolds), data.scaffold))
    ensures data.New? ==>
              var target := App.TargetInspectorId(old(store.isSuperAdmin), old(store.adminViewingInspectorId),
                                                  old(store.currentInspectorId));
              store.State() == old(store.State()).(scaffolds :=
                if Present(target) then old(store.scaffolds) + [App.NewScaffold(data.draft, newId, target.value, questionCount)]
                else old(store.scaffolds))
  {
    match data
    case Existing(s) => store.UpdateScaffold(s);
    case New(d) => store.AddScaffold(d, newId, questionCount);
  }

  /** `handleSaveChecklist`: the edited scaffold replaces the stored one. */
  method HandleSaveChecklist(store: App.Store, updated: Scaffold)
    modifies store
    ensures store.State() == old(store.State()).(scaffolds := App.ReplaceScaffold(old(store.scaffolds), updated))
  {
    store.UpdateScaffold(updated);
  }
}
