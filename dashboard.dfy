/** The inspector dashboard: tag counts, the per-unit chart, the smart
    reminders derived from tag colour and inspection age, and the manual
    reminders that are due now. */
module Dashboard {
  import opened Types
  import opened Seqs
  import opened Sorting
  import Text

  // ---------------------------------------------------------------------
  // Tag policy

  const GreenThresholdDays: int := 30
  const YellowThresholdDays: int := 7

  /** `Math.floor((now - inspectionDate) / (1000 * 3600 * 24))`: whole days
      elapsed, rounded down (also for an inspection date in the future). */
  function DaysSince(now: int, inspectionDate: int): (days: int)
    ensures days * DayMillis <= now - inspectionDate < (days + 1) * DayMillis
  {
    (now - inspectionDate) / DayMillis
  }

  /** The two values the smart-reminder map computes for a scaffold. */
  datatype Policy = Policy(requiresInspection: bool, overdueDays: int)

  /** The tag policy: a Green tag is due after 30 days, a Yellow tag after 7,
      strictly; a Red tag never. */
  function Evaluate(color: TagColor, days: int): (p: Policy)
    ensures color == Green ==> (p.requiresInspection <==> days > GreenThresholdDays)
    ensures color == Yellow ==> (p.requiresInspection <==> days > YellowThresholdDays)
    ensures color == Red ==> !p.requiresInspection
    ensures p.requiresInspection && color == Green ==> p.overdueDays == days - GreenThresholdDays
    ensures p.requiresInspection && color == Yellow ==> p.overdueDays == days - YellowThresholdDays
    ensures p.requiresInspection ==> p.overdueDays > 0
    ensures !p.requiresInspection ==> p.overdueDays == 0
  {
    var initial := Policy(false, 0);
    var afterGreen :=
      if color == Green && days > GreenThresholdDays then Policy(true, days - GreenThresholdDays) else initial;
    if color == Yellow && days > YellowThresholdDays then Policy(true, days - YellowThresholdDays) else afterGreen
  }

  /** A scaffold with the two fields the smart-reminder map adds. */
  datatype SmartReminder = SmartReminder(scaffold: Scaffold, requiresInspection: bool, overdueDays: int)

  /** `{ ...scaffold, requiresInspection, overdueDays }` for one scaffold. */
  function Annotate(s: Scaffold, now: int): SmartReminder
  {
    var p := Evaluate(s.tagColor, DaysSince(now, s.inspectionDate));
    SmartReminder(s, p.requiresInspection, p.overdueDays)
  }

  /** The scaffolds the policy flags at `now`. */
  function Flagged(now: int): Scaffold -> bool
  {
    (s: Scaffold) => Annotate(s, now).requiresInspection
  }

  predicate NeedsInspection(e: SmartReminder)
  {
    e.requiresInspection
  }

  /** `scaffolds.map(...)`. */
  function Annotated(scaffolds: seq<Scaffold>, now: int): (r: seq<SmartReminder>)
    ensures |r| == |scaffolds|
  {
    seq(|scaffolds|, k requires 0 <= k < |scaffolds| => Annotate(scaffolds[k], now))
  }

  /** `processed` before sorting: `scaffolds.map(...).filter(s => s.requiresInspection)`. */
  function Processed(scaffolds: seq<Scaffold>, now: int): seq<SmartReminder>
  {
    Filter(Annotated(scaffolds, now), NeedsInspection)
  }

  // ---------------------------------------------------------------------
  // Sort configuration

  datatype SortKey = Unit | OverdueDays
  datatype Direction = Ascending | Descending
  datatype SortConfig = SortConfig(key: SortKey, direction: Direction)

  /** The initial `sortConfig`. */
  const InitialSortConfig: SortConfig := SortConfig(OverdueDays, Descending)

  /** `requestSort(key)` as a function of the current configuration: the same
      key asked again flips the direction, a different key sorts ascending. */
  function NextSortConfig(current: SortConfig, key: SortKey): (next: SortConfig)
    ensures next.key == key
    ensures current.key == key ==> next.direction != current.direction
    ensures current.key != key ==> next.direction == Ascending
  {
    var direction :=
      if current.key == key && current.direction == Ascending then Descending
      else if current.key == key && current.direction == Descending then Ascending
      else Ascending;
    SortConfig(key, direction)
  }

  /** Asking for the same key twice restores the configuration. */
  lemma NextSortConfigInvolution(current: SortConfig)
    ensures NextSortConfig(NextSortConfig(current, current.key), current.key) == current
  {
  }

  /** The `sortConfig` state of the dashboard and its `requestSort` handler. */
  class SortState {
    var config: SortConfig

    constructor ()
      ensures config == InitialSortConfig
    {
      config := InitialSortConfig;
    }

    method RequestSort(key: SortKey)
      modifies this
      ensures config == NextSortConfig(old(config), key)
      ensures config.key == key
      ensures old(config).key == key ==> config.direction != old(config).direction
      ensures old(config).key != key ==> config.direction == Ascending
    {
      var direction := Ascending;
      if config.key == key && config.direction == Ascending {
        direction := Descending;
      } else if config.key == key && config.direction == Descending {
        direction := Ascending;
      }
      config := SortConfig(key, direction);
    }
  }

  /** `a[key] < b[key]` for the two sortable fields; units compare as strings. */
  predicate KeyLess(key: SortKey, a: SmartReminder, b: SmartReminder)
  {
    match key
    case Unit => Text.StrLess(a.scaffold.unit, b.scaffold.unit)
    case OverdueDays => a.overdueDays < b.overdueDays
  }

  /** The comparator passed to `processed.sort`. */
  function Compare(config: SortConfig, a: SmartReminder, b: SmartReminder): int
  {
    if KeyLess(config.key, a, b) then (if config.direction == Ascending then -1 else 1)
    else if KeyLess(config.key, b, a) then (if config.direction == Ascending then 1 else -1)
    else 0
  }

  /** `a` goes before `b`: the comparator is negative. */
  function Before(config: SortConfig): (SmartReminder, SmartReminder) -> bool
  {
    (a, b) => Compare(config, a, b) < 0
  }

  lemma KeyLessAsymmetric(key: SortKey, a: SmartReminder, b: SmartReminder)
    ensures !(KeyLess(key, a, b) && KeyLess(key, b, a))
  {
    Text.StrLessAsymmetric(a.scaffold.unit, b.scaffold.unit);
  }

  /** Under `Before(config)`, two entries tie exactly when their keys are equal. */
  lemma BeforeTies(config: SortConfig, a: SmartReminder, b: SmartReminder)
    ensures Ties(a, b, Before(config)) <==> !KeyLess(config.key, a, b) && !KeyLess(config.key, b, a)
    ensures config.key == Unit ==> (Ties(a, b, Before(config)) <==> a.scaffold.unit == b.scaffold.unit)
    ensures config.key == OverdueDays ==> (Ties(a, b, Before(config)) <==> a.overdueDays == b.overdueDays)
  {
    KeyLessAsymmetric(config.key, a, b);
    if a.scaffold.unit != b.scaffold.unit {
      Text.StrLessTotal(a.scaffold.unit, b.scaffold.unit);
    } else {
      Text.StrLessIrreflexive(a.scaffold.unit);
    }
  }

  /** Either key on its own orders consistently: irreflexive, transitive,
      and with transitive ties. */
  lemma KeyLessConsistent(key: SortKey, a: SmartReminder, b: SmartReminder, c: SmartReminder)
    ensures !KeyLess(key, a, a)
    ensures KeyLess(key, a, b) && KeyLess(key, b, c) ==> KeyLess(key, a, c)
    ensures !KeyLess(key, a, b) && !KeyLess(key, b, c) ==> !KeyLess(key, a, c)
  {
    var ua, ub, uc := a.scaffold.unit, b.scaffold.unit, c.scaffold.unit;
    Text.StrLessIrreflexive(ua);
    if Text.StrLess(ua, ub) && Text.StrLess(ub, uc) {
      Text.StrLessTransitive(ua, ub, uc);
    }
    if !Text.StrLess(ua, ub) && !Text.StrLess(ub, uc) {
      Text.StrLessNegTransitive(uc, ub, ua);
    }
  }

  /** `Before(config)` is a consistent comparator for either key and direction:
      the key order itself when ascending, its converse when descending. */
  lemma BeforeIsStrictWeakOrder(config: SortConfig)
    ensures StrictWeakOrder(Before(config))
  {
    var key, less := config.key, Before(config);
    forall a, b
      ensures less(a, b) == if config.direction == Ascending then KeyLess(key, a, b) else KeyLess(key, b, a)
    {
      KeyLessAsymmetric(key, a, b);
    }
    forall a ensures !less(a, a) {
      KeyLessConsistent(key, a, a, a);
    }
    forall a, b, c ensures less(a, b) && less(b, c) ==> less(a, c) {
      KeyLessConsistent(key, a, b, c);
      KeyLessConsistent(key, c, b, a);
    }
    forall a, b, c ensures !less(a, b) && !less(b, c) ==> !less(a, c) {
      KeyLessConsistent(key, a, b, c);
      KeyLessConsistent(key, c, b, a);
    }
  }

  // ---------------------------------------------------------------------
  // Smart reminders

  /** `smartReminders`: the flagged scaffolds, annotated, in the order of the
      comparator (stable for equal keys). */
  function SmartReminders(scaffolds: seq<Scaffold>, now: int, config: SortConfig): seq<SmartReminder>
  {
    SortBy(Processed(scaffolds, now), Before(config))
  }

  /** The map callback with its two mutable locals, set by two successive
      tests. */
  method AnnotateScaffold(s: Scaffold, now: int) returns (e: SmartReminder)
    ensures e == Annotate(s, now)
    ensures e.scaffold == s
    ensures e.requiresInspection ==> e.overdueDays > 0 && s.tagColor != Red
  {
    var daysSinceInspection := DaysSince(now, s.inspectionDate);
    var overdueDays := 0;
    var requiresInspection := false;
    if s.tagColor == Green && daysSinceInspection > GreenThresholdDays {
      requiresInspection := true;
      overdueDays := daysSinceInspection - GreenThresholdDays;
    }
    if s.tagColor == Yellow && daysSinceInspection > YellowThresholdDays {
      requiresInspection := true;
      overdueDays := daysSinceInspection - YellowThresholdDays;
    }
    e := SmartReminder(s, requiresInspection, overdueDays);
  }

  /** The memo's computation: map the scaffolds with the callback, keep the
      flagged ones, then sort that array in place. */
  method ComputeSmartReminders(scaffolds: seq<Scaffold>, now: int, config: SortConfig)
    returns (result: seq<SmartReminder>)
    ensures result == SmartReminders(scaffolds, now, config)
  {
    var mapped: seq<SmartReminder> := [];
    var i := 0;
    while i < |scaffolds|
      invariant 0 <= i <= |scaffolds|
      invariant mapped == Annotated(scaffolds[..i], now)
    {
      var e := AnnotateScaffold(scaffolds[i], now);
      assert Annotated(scaffolds[..i + 1], now) == Annotated(scaffolds[..i], now) + [e];
      mapped := mapped + [e];
      i := i + 1;
    }
    assert scaffolds[..i] == scaffolds;
    var processed := Filter(mapped, NeedsInspection);
    var a := new SmartReminder[|processed|](k requires 0 <= k < |processed| => processed[k]);
    assert a[..] == processed;
    SortInPlace(a, Before(config));
    result := a[..];
  }

  lemma {:induction false} AnnotatedConcat(a: seq<Scaffold>, b: seq<Scaffold>, now: int)
    ensures Annotated(a + b, now) == Annotated(a, now) + Annotated(b, now)
  {
  }

  /** `processed` is the annotation of exactly the flagged scaffolds, in input order. */
  lemma {:induction false} ProcessedIsFlaggedInOrder(scaffolds: seq<Scaffold>, now: int)
    ensures Processed(scaffolds, now) == Annotated(Filter(scaffolds, Flagged(now)), now)
  {
    if scaffolds != [] {
      var rest := scaffolds[1..];
      var head := if Flagged(now)(scaffolds[0]) then [scaffolds[0]] else [];
      var kept := Filter(rest, Flagged(now));
      ProcessedIsFlaggedInOrder(rest, now);
      AnnotatedCons(scaffolds, now);
      FilterConcat([Annotate(scaffolds[0], now)], Annotated(rest, now), NeedsInspection);
      assert Filter([Annotate(scaffolds[0], now)], NeedsInspection) == Annotated(head, now);
      assert Filter(scaffolds, Flagged(now)) == head + kept;
      AnnotatedConcat(head, kept, now);
    }
  }

  lemma AnnotatedCons(scaffolds: seq<Scaffold>, now: int)
    requires scaffolds != []
    ensures Annotated(scaffolds, now) == [Annotate(scaffolds[0], now)] + Annotated(scaffolds[1..], now)
  {
  }

  lemma ProcessedMember(scaffolds: seq<Scaffold>, now: int, e: SmartReminder)
    requires e in Processed(scaffolds, now)
    ensures e.scaffold in scaffolds && e == Annotate(e.scaffold, now) && e.requiresInspection
  {
    var ann := Annotated(scaffolds, now);
    assert e in ann;
    var m :| 0 <= m < |ann| && ann[m] == e;
    assert e.scaffold == scaffolds[m];
  }

  /** The smart-reminder list holds exactly the flagged scaffolds, each once per
      occurrence in the input, with the scaffold's own fields untouched. */
  lemma SmartRemindersExactlyFlagged(scaffolds: seq<Scaffold>, now: int, config: SortConfig)
    ensures multiset(SmartReminders(scaffolds, now, config))
         == multiset(Annotated(Filter(scaffolds, Flagged(now)), now))
    ensures forall e :: e in SmartReminders(scaffolds, now, config) ==>
              e.scaffold in scaffolds && e == Annotate(e.scaffold, now) && e.requiresInspection
    ensures forall k :: 0 <= k < |scaffolds| && Annotate(scaffolds[k], now).requiresInspection ==>
              Annotate(scaffolds[k], now) in SmartReminders(scaffolds, now, config)
  {
    var r := SmartReminders(scaffolds, now, config);
    var p := Processed(scaffolds, now);
    SortByPermutes(p, Before(config));
    ProcessedIsFlaggedInOrder(scaffolds, now);
    forall e | e in r
      ensures e.scaffold in scaffolds && e == Annotate(e.scaffold, now) && e.requiresInspection
    {
      assert e in multiset(p);
      ProcessedMember(scaffolds, now, e);
    }
    forall k | 0 <= k < |scaffolds| && Annotate(scaffolds[k], now).requiresInspection
      ensures Annotate(scaffolds[k], now) in r
    {
      var ann := Annotated(scaffolds, now);
      assert ann[k] == Annotate(scaffolds[k], now);
      assert ann[k] in p;
      assert ann[k] in multiset(r);
    }
  }

  /** A red tag never shows up among the smart reminders, whatever its age. */
  lemma SmartRemindersNeverRed(scaffolds: seq<Scaffold>, now: int, config: SortConfig)
    ensures forall e :: e in SmartReminders(scaffolds, now, config) ==> e.scaffold.tagColor != Red
  {
    SmartRemindersExactlyFlagged(scaffolds, now, config);
  }

  /** Adjacent-or-not, entries appear in the requested order of their key:
      non-decreasing when ascending, non-increasing when descending. */
  predicate InOrder(config: SortConfig, a: SmartReminder, b: SmartReminder)
  {
    match config
    case SortConfig(OverdueDays, Ascending) => a.overdueDays <= b.overdueDays
    case SortConfig(OverdueDays, Descending) => a.overdueDays >= b.overdueDays
    case SortConfig(Unit, Ascending) => !Text.StrLess(b.scaffold.unit, a.scaffold.unit)
    case SortConfig(Unit, Descending) => !Text.StrLess(a.scaffold.unit, b.scaffold.unit)
  }

  lemma SmartRemindersOrdered(scaffolds: seq<Scaffold>, now: int, config: SortConfig)
    ensures var r := SmartReminders(scaffolds, now, config);
            forall i, j :: 0 <= i < j < |r| ==> InOrder(config, r[i], r[j])
  {
    var r := SmartReminders(scaffolds, now, config);
    BeforeIsStrictWeakOrder(config);
    SortBySorted(Processed(scaffolds, now), Before(config));
    forall i, j | 0 <= i < j < |r| ensures InOrder(config, r[i], r[j]) {
      assert !Before(config)(r[j], r[i]);
      KeyLessAsymmetric(config.key, r[i], r[j]);
    }
  }

  /** Stability: entries with equal keys keep the relative order they had in
      `processed` (hence in the input). */
  lemma SmartRemindersStable(scaffolds: seq<Scaffold>, now: int, config: SortConfig, e: SmartReminder)
    ensures TiesWith(SmartReminders(scaffolds, now, config), e, Before(config))
         == TiesWith(Processed(scaffolds, now), e, Before(config))
  {
    BeforeIsStrictWeakOrder(config);
    SortByStable(Processed(scaffolds, now), e, Before(config));
  }

  /** A green tag inspected 45 days ago is 15 days overdue. */
  lemma GreenAfterFortyFiveDays(s: Scaffold, now: int)
    requires s.tagColor == Green && s.inspectionDate == now - 45 * DayMillis
    ensures Annotate(s, now) == SmartReminder(s, true, 15)
  {
  }

  /** A yellow tag inspected 5 days ago is not yet due. */
  lemma YellowAfterFiveDays(s: Scaffold, now: int)
    requires s.tagColor == Yellow && s.inspectionDate == now - 5 * DayMillis
    ensures !Annotate(s, now).requiresInspection
  {
  }

  /** The threshold itself is not overdue: a green tag is flagged at 31 days, not at 30 days
      and 23 hours. */
  lemma GreenThresholdIsStrict(s: Scaffold, now: int)
    requires s.tagColor == Green
    ensures now - s.inspectionDate < 31 * DayMillis ==> !Annotate(s, now).requiresInspection
    ensures now - s.inspectionDate >= 31 * DayMillis ==> Annotate(s, now).requiresInspection
  {
  }

  // ---------------------------------------------------------------------
  // Tag counts

  function HasColor(color: TagColor): Scaffold -> bool
  {
    (s: Scaffold) => s.tagColor == color
  }

  /** `scaffolds.filter(s => s.tagColor === color).length`. */
  function TagCount(scaffolds: seq<Scaffold>, color: TagColor): nat
  {
    Count(scaffolds, HasColor(color))
  }

  /** Every scaffold has exactly one colour, so the three counts add up to the total. */
  lemma {:induction false} TagCountsPartition(scaffolds: seq<Scaffold>)
    ensures TagCount(scaffolds, Green) + TagCount(scaffolds, Yellow) + TagCount(scaffolds, Red) == |scaffolds|
  {
    if scaffolds != [] {
      TagCountsPartition(scaffolds[1..]);
    }
  }

  // ---------------------------------------------------------------------
  // Unit chart

  /** One bar of `chartData`. */
  datatype UnitCount = UnitCount(name: string, count: int)

  function UnitsOf(scaffolds: seq<Scaffold>): (r: seq<string>)
    ensures |r| == |scaffolds|
  {
    seq(|scaffolds|, k requires 0 <= k < |scaffolds| => scaffolds[k].unit)
  }

  function Names(chart: seq<UnitCount>): (r: seq<string>)
    ensures |r| == |chart|
  {
    seq(|chart|, k requires 0 <= k < |chart| => chart[k].name)
  }

  /** The distinct values of `s` in order of first occurrence. */
  function FirstOccurrences(s: seq<string>): seq<string>
  {
    if s == [] then []
    else
      var init := FirstOccurrences(s[..|s| - 1]);
      if s[|s| - 1] in init then init else init + [s[|s| - 1]]
  }

  /** FirstOccurrences holds every value of `s`, nothing else, and each once. */
  lemma {:induction false} FirstOccurrencesSpec(s: seq<string>)
    ensures forall k :: 0 <= k < |FirstOccurrences(s)| ==> FirstOccurrences(s)[k] in s
    ensures forall k :: 0 <= k < |s| ==> s[k] in FirstOccurrences(s)
    ensures forall i, j :: 0 <= i < j < |FirstOccurrences(s)| ==> FirstOccurrences(s)[i] != FirstOccurrences(s)[j]
  {
    if s != [] {
      var init := s[..|s| - 1];
      FirstOccurrencesSpec(init);
      assert forall k :: 0 <= k < |init| ==> init[k] == s[k];
    }
  }

  /** FirstOccurrences lists each value where it first appears: of two listed
      values, the earlier one occurs earlier in `s`. */
  lemma {:induction false} FirstOccurrencesOrder(s: seq<string>, i: nat, j: nat)
    requires i < j < |FirstOccurrences(s)|
    ensures exists p :: 0 <= p < |s| && s[p] == FirstOccurrences(s)[i]
                        && forall q :: 0 <= q <= p ==> s[q] != FirstOccurrences(s)[j]
  {
    var init := s[..|s| - 1];
    var fi := FirstOccurrences(init);
    var r := FirstOccurrences(s);
    if j < |fi| {
      assert r[i] == fi[i] && r[j] == fi[j];
      FirstOccurrencesOrder(init, i, j);
      var p :| 0 <= p < |init| && init[p] == fi[i] && forall q :: 0 <= q <= p ==> init[q] != fi[j];
      assert s[p] == r[i];
      assert forall q :: 0 <= q <= p ==> s[q] == init[q];
    } else {
      // r[j] is the last element of s, seen for the first time there.
      FirstOccurrencesSpec(init);
      assert r == fi + [s[|s| - 1]] && r[j] == s[|s| - 1] && r[i] == fi[i];
      assert fi[i] in init;
      var p :| 0 <= p < |init| && init[p] == fi[i];
      assert s[p] == r[i];
      forall q | 0 <= q <= p ensures s[q] != r[j] {
        assert s[q] == init[q];
        assert init[q] in fi;
      }
    }
  }

  function HasUnit(unit: string): Scaffold -> bool
  {
    (s: Scaffold) => s.unit == unit
  }

  /** `acc.find(item => item.name === name)`, as a position. */
  function FindUnit(chart: seq<UnitCount>, name: string): (r: Option<nat>)
    ensures r.Some? ==> r.value < |chart| && chart[r.value].name == name
    ensures r.None? <==> forall k :: 0 <= k < |chart| ==> chart[k].name != name
  {
    if chart == [] then None
    else if chart[0].name == name then Some(0)
    else match FindUnit(chart[1..], name)
      case None => None
      case Some(k) => Some(k + 1)
  }

  /** The sum of the counts of a chart. */
  function TotalCount(chart: seq<UnitCount>): int
  {
    if chart == [] then 0 else TotalCount(chart[..|chart| - 1]) + chart[|chart| - 1].count
  }

  lemma {:induction false} TotalCountIncrement(chart: seq<UnitCount>, k: nat)
    requires k < |chart|
    ensures TotalCount(chart[k := UnitCount(chart[k].name, chart[k].count + 1)]) == TotalCount(chart) + 1
  {
    var c := chart[k := UnitCount(chart[k].name, chart[k].count + 1)];
    assert c[..|c| - 1] == if k == |chart| - 1 then chart[..|chart| - 1]
                           else chart[..|chart| - 1][k := c[k]];
    if k < |chart| - 1 {
      TotalCountIncrement(chart[..|chart| - 1], k);
    }
  }

  lemma UnitsOfSnoc(prefix: seq<Scaffold>, s: Scaffold)
    ensures FirstOccurrences(UnitsOf(prefix + [s]))
         == var f := FirstOccurrences(UnitsOf(prefix));
            if s.unit in f then f else f + [s.unit]
  {
    var u := UnitsOf(prefix + [s]);
    assert u[..|u| - 1] == UnitsOf(prefix);
  }

  /** Every bar counts the scaffolds of `prefix` whose unit is its name. */
  ghost predicate CountsMatch(chart: seq<UnitCount>, prefix: seq<Scaffold>)
  {
    forall k :: 0 <= k < |chart| ==> chart[k].count == Count(prefix, HasUnit(chart[k].name))
  }

  /** The reduce callback of `chartData`: bump the bar of `unit` if there is
      one, otherwise append a bar for it with count 1. */
  function AddToChart(chart: seq<UnitCount>, unit: string): seq<UnitCount>
  {
    match FindUnit(chart, unit)
    case Some(k) => chart[k := UnitCount(chart[k].name, chart[k].count + 1)]
    case None => chart + [UnitCount(unit, 1)]
  }

  /** `chart` is the chart of `prefix`: one bar per distinct unit in order of
      first occurrence, each counting its scaffolds, the counts adding up to
      the number of scaffolds. */
  ghost predicate ChartOf(chart: seq<UnitCount>, prefix: seq<Scaffold>)
  {
    && Names(chart) == FirstOccurrences(UnitsOf(prefix))
    && CountsMatch(chart, prefix)
    && TotalCount(chart) == |prefix|
  }

  /** One reduce step keeps the chart in step with the scaffolds seen so far. */
  lemma AddToChartInvariant(prefix: seq<Scaffold>, s: Scaffold, chart: seq<UnitCount>)
    requires ChartOf(chart, prefix)
    ensures ChartOf(AddToChart(chart, s.unit), prefix + [s])
  {
    UnitsOfSnoc(prefix, s);
    match FindUnit(chart, s.unit)
    case Some(k) =>
      assert Names(chart)[k] == s.unit;
      BumpStep(prefix, s, chart, k);
      TotalCountIncrement(chart, k);
    case None =>
      UnseenUnit(prefix, s.unit, chart);
      AppendStep(prefix, s, chart);
      AppendBar(chart, UnitCount(s.unit, 1));
  }

  /** `chartData`: the reduce over the scaffolds with `AddToChart`. The result
      has one bar per distinct unit in order of first occurrence, each
      counting the scaffolds of that unit, and the counts add up to the total. */
  method ChartData(scaffolds: seq<Scaffold>) returns (chart: seq<UnitCount>)
    ensures ChartOf(chart, scaffolds)
  {
    chart := [];
    var i := 0;
    while i < |scaffolds|
      invariant 0 <= i <= |scaffolds|
      invariant ChartOf(chart, scaffolds[..i])
    {
      ChartStep(scaffolds, i, chart);
      chart := AddToChart(chart, scaffolds[i].unit);
      i := i + 1;
    }
    assert scaffolds[..i] == scaffolds;
  }

  lemma ChartStep(scaffolds: seq<Scaffold>, i: nat, chart: seq<UnitCount>)
    requires i < |scaffolds| && ChartOf(chart, scaffolds[..i])
    ensures ChartOf(AddToChart(chart, scaffolds[i].unit), scaffolds[..i + 1])
  {
    TakeSnoc(scaffolds, i);
    AddToChartInvariant(scaffolds[..i], scaffolds[i], chart);
  }

  lemma CountUnitSnoc(prefix: seq<Scaffold>, s: Scaffold, name: string)
    ensures Count(prefix + [s], HasUnit(name)) == Count(prefix, HasUnit(name)) + (if s.unit == name then 1 else 0)
  {
    FilterSnoc(prefix, s, HasUnit(name));
  }

  /** A scaffold of an already listed unit bumps that bar and no other. */
  lemma BumpStep(prefix: seq<Scaffold>, s: Scaffold, chart: seq<UnitCount>, k: nat)
    requires k < |chart| && chart[k].name == s.unit
    requires Names(chart) == FirstOccurrences(UnitsOf(prefix))
    requires CountsMatch(chart, prefix)
    ensures Names(chart[k := UnitCount(chart[k].name, chart[k].count + 1)]) == Names(chart)
    ensures CountsMatch(chart[k := UnitCount(chart[k].name, chart[k].count + 1)], prefix + [s])
  {
    var c := chart[k := UnitCount(chart[k].name, chart[k].count + 1)];
    var names := Names(chart);
    FirstOccurrencesSpec(UnitsOf(prefix));
    forall m | 0 <= m < |c| ensures c[m].count == Count(prefix + [s], HasUnit(c[m].name)) {
      CountUnitSnoc(prefix, s, c[m].name);
      if m != k {
        assert names[m] != names[k];
      }
    }
  }

  lemma AppendBar(chart: seq<UnitCount>, bar: UnitCount)
    ensures Names(chart + [bar]) == Names(chart) + [bar.name]
    ensures TotalCount(chart + [bar]) == TotalCount(chart) + bar.count
  {
    assert (chart + [bar])[..|chart|] == chart;
  }

  /** A unit not yet on the chart has no scaffold in the prefix. */
  lemma UnseenUnit(prefix: seq<Scaffold>, unit: string, chart: seq<UnitCount>)
    requires forall k :: 0 <= k < |chart| ==> chart[k].name != unit
    requires Names(chart) == FirstOccurrences(UnitsOf(prefix))
    ensures unit !in Names(chart)
    ensures Count(prefix, HasUnit(unit)) == 0
  {
    FirstOccurrencesSpec(UnitsOf(prefix));
    assert unit !in Names(chart);
    forall q | 0 <= q < |prefix| ensures !HasUnit(unit)(prefix[q]) {
      assert UnitsOf(prefix)[q] == prefix[q].unit;
    }
    FilterNone(prefix, HasUnit(unit));
  }

  /** A scaffold of a new unit appends a bar with count 1. */
  lemma AppendStep(prefix: seq<Scaffold>, s: Scaffold, chart: seq<UnitCount>)
    requires forall k :: 0 <= k < |chart| ==> chart[k].name != s.unit
    requires Count(prefix, HasUnit(s.unit)) == 0
    requires CountsMatch(chart, prefix)
    ensures CountsMatch(chart + [UnitCount(s.unit, 1)], prefix + [s])
  {
    var c := chart + [UnitCount(s.unit, 1)];
    forall m | 0 <= m < |c| ensures c[m].count == Count(prefix + [s], HasUnit(c[m].name)) {
      CountUnitSnoc(prefix, s, c[m].name);
    }
  }

  // ---------------------------------------------------------------------
  // Manual reminders due now

  function DueBy(now: int): Reminder -> bool
  {
    (r: Reminder) => !r.isCompleted && r.targetDateTime <= now
  }

  /** `pendingManualReminders`: open reminders whose target has passed,
      earliest first. */
  function PendingManualReminders(reminders: seq<Reminder>, now: int): seq<Reminder>
  {
    SortBy(Filter(reminders, DueBy(now)), TargetBefore)
  }

  lemma PendingManualRemindersSpec(reminders: seq<Reminder>, now: int)
    ensures var r := PendingManualReminders(reminders, now);
            && multiset(r) == multiset(Filter(reminders, DueBy(now)))
            && (forall x :: x in r <==> x in reminders && !x.isCompleted && x.targetDateTime <= now)
            && (forall i, j :: 0 <= i < j < |r| ==> r[i].targetDateTime <= r[j].targetDateTime)
  {
    var r := PendingManualReminders(reminders, now);
    var f := Filter(reminders, DueBy(now));
    TargetBeforeIsStrictWeakOrder();
    SortBySorted(f, TargetBefore);
    SortByPermutes(f, TargetBefore);
    forall x ensures x in r <==> x in reminders && !x.isCompleted && x.targetDateTime <= now {
      assert x in r <==> x in multiset(f);
      if x in reminders && !x.isCompleted && x.targetDateTime <= now {
        var k :| 0 <= k < |reminders| && reminders[k] == x;
        assert DueBy(now)(reminders[k]);
      }
    }
  }
}
