/**
 * The statistics view (components/stats-section.tsx): a filter mode with a
 * selected developer or sprint, the summary figures of the filtered bugs,
 * the per-developer and per-sprint chart data over all bugs, and the status
 * slices of the pie chart.
 */
module StatsSection {
  import opened Wrappers
  import opened Seqs
  import opened Types
  import opened Grouping

  /** The "Filter By" select: all bugs, by developer or by sprint. */
  datatype FilterMode = All | ByDeveloper | BySprint

  /**
   * The filtered bugs: the developer filter applies in developer mode with a
   * non-empty selection, the sprint filter in sprint mode with a non-empty
   * selection, and otherwise the list is unchanged.
   */
  function FilteredBugs(bugs: seq<BugWithDetails>, mode: FilterMode, dev: Id, sprint: Id): seq<BugWithDetails> {
    var afterDeveloper := if mode == ByDeveloper && dev != "" then Filter(bugs, DeveloperIs(dev)) else bugs;
    if mode == BySprint && sprint != "" then Filter(afterDeveloper, SprintIs(sprint)) else afterDeveloper
  }

  /** Which bugs a mode and selection keep, bug by bug. */
  predicate Selected(mode: FilterMode, dev: Id, sprint: Id, b: BugWithDetails) {
    match mode
    case All => true
    case ByDeveloper => dev == "" || b.bug.developer_id == Some(dev)
    case BySprint => sprint == "" || b.bug.sprint_id == Some(sprint)
  }

  /**
   * The filtered list keeps its bugs in their original order, keeps exactly
   * the selected ones, and is the whole list when nothing is selected.
   */
  lemma FilteredBugsSpec(bugs: seq<BugWithDetails>, mode: FilterMode, dev: Id, sprint: Id)
    ensures IsSubsequence(FilteredBugs(bugs, mode, dev, sprint), bugs)
    ensures forall b :: b in FilteredBugs(bugs, mode, dev, sprint) <==> b in bugs && Selected(mode, dev, sprint, b)
    ensures (mode == All || (mode == ByDeveloper && dev == "") || (mode == BySprint && sprint == ""))
            ==> FilteredBugs(bugs, mode, dev, sprint) == bugs
  {
    var r := FilteredBugs(bugs, mode, dev, sprint);
    if mode == ByDeveloper && dev != "" {
      FilterIsSubsequence(bugs, DeveloperIs(dev));
      forall b | b in bugs && Selected(mode, dev, sprint, b) ensures b in r {
        FilterComplete(bugs, DeveloperIs(dev), b);
      }
    } else if mode == BySprint && sprint != "" {
      FilterIsSubsequence(bugs, SprintIs(sprint));
      forall b | b in bugs && Selected(mode, dev, sprint, b) ensures b in r {
        FilterComplete(bugs, SprintIs(sprint), b);
      }
    } else {
      SubsequenceReflexive(bugs);
    }
  }

  // ---------------------------------------------------------------------
  // Summary figures

  datatype Stats = Stats(total: nat, totalPenalty: int, pending: nat, paid: nat, waived: nat, pendingPenalty: int)

  function HasStatus(s: PenaltyStatus): BugWithDetails -> bool {
    (b: BugWithDetails) => b.bug.penalty_status == Some(s)
  }

  function ComputeStats(filtered: seq<BugWithDetails>): Stats {
    Stats(
      |filtered|,
      Sum(filtered, BugAmount),
      |Filter(filtered, HasStatus(Pending))|,
      |Filter(filtered, HasStatus(Paid))|,
      |Filter(filtered, HasStatus(Waived))|,
      Sum(Filter(filtered, HasStatus(Pending)), BugAmount))
  }

  /** How many bugs carry status `s`, counted one by one. */
  function CountStatus(bugs: seq<BugWithDetails>, s: PenaltyStatus): nat {
    if bugs == [] then 0
    else CountStatus(bugs[..|bugs| - 1], s) + (if bugs[|bugs| - 1].bug.penalty_status == Some(s) then 1 else 0)
  }

  function CountNoStatus(bugs: seq<BugWithDetails>): nat {
    if bugs == [] then 0
    else CountNoStatus(bugs[..|bugs| - 1]) + (if bugs[|bugs| - 1].bug.penalty_status.None? then 1 else 0)
  }

  lemma {:induction false} StatusCounts(bugs: seq<BugWithDetails>)
    ensures |Filter(bugs, HasStatus(Pending))| == CountStatus(bugs, Pending)
    ensures |Filter(bugs, HasStatus(Paid))| == CountStatus(bugs, Paid)
    ensures |Filter(bugs, HasStatus(Waived))| == CountStatus(bugs, Waived)
    ensures CountStatus(bugs, Pending) + CountStatus(bugs, Paid) + CountStatus(bugs, Waived) + CountNoStatus(bugs) == |bugs|
  {
    if bugs != [] {
      StatusCounts(bugs[..|bugs| - 1]);
      match bugs[|bugs| - 1].bug.penalty_status
      case None =>
      case Some(st) => assert st == Pending || st == Paid || st == Waived;
    }
  }

  /**
   * The summary of the filtered bugs: `total` is their number, the three
   * status counts add up to it (with the bugs without a status), and when no
   * amount is negative the pending penalty is at most the total penalty,
   * which is itself not negative.
   */
  lemma StatsFacts(filtered: seq<BugWithDetails>)
    ensures ComputeStats(filtered).total == |filtered|
    ensures ComputeStats(filtered).totalPenalty == Sum(filtered, BugAmount)
    ensures ComputeStats(filtered).pending + ComputeStats(filtered).paid + ComputeStats(filtered).waived + CountNoStatus(filtered) == |filtered|
    ensures (forall i :: 0 <= i < |filtered| ==> BugAmount(filtered[i]) >= 0) ==>
              0 <= ComputeStats(filtered).pendingPenalty <= ComputeStats(filtered).totalPenalty
  {
    StatusCounts(filtered);
    if forall i :: 0 <= i < |filtered| ==> BugAmount(filtered[i]) >= 0 {
      SumFilterAtMost(filtered, HasStatus(Pending), BugAmount);
      var pend := Filter(filtered, HasStatus(Pending));
      forall i | 0 <= i < |pend| ensures BugAmount(pend[i]) >= 0 {
        assert pend[i] in filtered;
      }
      SumNonNegative(pend, BugAmount);
    }
  }

  // ---------------------------------------------------------------------
  // Status slices

  datatype Slice = Slice(status: PenaltyStatus, value: nat)

  function SliceShown(d: Slice): bool { d.value > 0 }

  /** The pie chart's slices in the order pending, paid, waived. */
  function AllSlices(st: Stats): seq<Slice> {
    [Slice(Pending, st.pending), Slice(Paid, st.paid), Slice(Waived, st.waived)]
  }

  function StatusData(st: Stats): seq<Slice> {
    Filter(AllSlices(st), SliceShown)
  }

  /** Only non-zero slices are shown, every non-zero one is, and the order is kept. */
  lemma StatusDataFacts(st: Stats)
    ensures forall d :: d in StatusData(st) ==> d.value > 0
    ensures IsSubsequence(StatusData(st), AllSlices(st))
    ensures Slice(Pending, st.pending) in StatusData(st) <==> st.pending > 0
    ensures Slice(Paid, st.paid) in StatusData(st) <==> st.paid > 0
    ensures Slice(Waived, st.waived) in StatusData(st) <==> st.waived > 0
  {
    FilterIsSubsequence(AllSlices(st), SliceShown);
    if st.pending > 0 { FilterComplete(AllSlices(st), SliceShown, Slice(Pending, st.pending)); }
    if st.paid > 0 { FilterComplete(AllSlices(st), SliceShown, Slice(Paid, st.paid)); }
    if st.waived > 0 { FilterComplete(AllSlices(st), SliceShown, Slice(Waived, st.waived)); }
  }

  // ---------------------------------------------------------------------
  // Per-developer and per-sprint chart data

  /** A bug as the developer chart sees it: keyed by `developer_id`, named after its developer. */
  function DeveloperItem(b: BugWithDetails): Item<Option<Id>> {
    Item(b.bug.developer_id, if b.developer.Some? then b.developer.value.name else "", BugAmount(b))
  }

  function SprintItem(b: BugWithDetails): Item<Option<Id>> {
    Item(b.bug.sprint_id, if b.sprint.Some? then b.sprint.value.name else "", BugAmount(b))
  }

  /** What the chart shows: the grouping of all bugs, by non-increasing penalty. */
  function ChartData(bugs: seq<BugWithDetails>, f: BugWithDetails -> Item<Option<Id>>): seq<Group<Option<Id>>> {
    SortDesc(ByPenalty, Grouped(Map(bugs, f)))
  }

  /**
   * `developerData`: a dictionary keyed by developer id, filled while walking
   * every bug (not the filtered ones), then its values sorted by penalty.
   * Reading the developer's name fails when a bug has no developer joined.
   */
  method DeveloperData(bugs: seq<BugWithDetails>) returns (data: seq<Group<Option<Id>>>)
    requires forall i :: 0 <= i < |bugs| ==> bugs[i].developer.Some?
    ensures data == ChartData(bugs, DeveloperItem)
  {
    var devStats := new Tally<Option<Id>>();
    var i := 0;
    while i < |bugs|
      invariant 0 <= i <= |bugs|
      invariant devStats.Valid() && devStats.Values() == Grouped(Map(bugs[..i], DeveloperItem))
    {
      GroupedPrefixStep(bugs, i, DeveloperItem);
      devStats.Add(DeveloperItem(bugs[i]));
      i := i + 1;
    }
    assert bugs[..i] == bugs;
    data := SortDesc(ByPenalty, devStats.Values());
  }

  /** `sprintData`: the same walk keyed by sprint id, named after the sprint. */
  method SprintData(bugs: seq<BugWithDetails>) returns (data: seq<Group<Option<Id>>>)
    requires forall i :: 0 <= i < |bugs| ==> bugs[i].sprint.Some?
    ensures data == ChartData(bugs, SprintItem)
  {
    var sprintStats := new Tally<Option<Id>>();
    var i := 0;
    while i < |bugs|
      invariant 0 <= i <= |bugs|
      invariant sprintStats.Valid() && sprintStats.Values() == Grouped(Map(bugs[..i], SprintItem))
    {
      GroupedPrefixStep(bugs, i, SprintItem);
      sprintStats.Add(SprintItem(bugs[i]));
      i := i + 1;
    }
    assert bugs[..i] == bugs;
    data := SortDesc(ByPenalty, sprintStats.Values());
  }

  /**
   * The chart data, whichever key it groups by: counts add up to the number
   * of bugs and penalties to the total penalty of all bugs.
   */
  lemma ChartDataTotals(bugs: seq<BugWithDetails>, f: BugWithDetails -> Item<Option<Id>>)
    requires forall b :: f(b).amount == BugAmount(b)
    ensures Sum(ChartData(bugs, f), GroupCount) == |bugs|
    ensures Sum(ChartData(bugs, f), GroupPenalty) == Sum(bugs, BugAmount)
  {
    var items := Map(bugs, f);
    GroupedTotals(items);
    SortDescProperties(ByPenalty, Grouped(items));
    SumMap(bugs, f, ItemAmount, BugAmount);
  }

  /** Each key has exactly one entry, and the keys are those of the bugs. */
  lemma ChartDataKeys(bugs: seq<BugWithDetails>, f: BugWithDetails -> Item<Option<Id>>)
    ensures Distinct(KeysOfGroups(ChartData(bugs, f)))
    ensures forall k :: k in KeysOfGroups(ChartData(bugs, f)) <==> k in Keys(Map(bugs, f))
  {
    var items := Map(bugs, f);
    var g := Grouped(items);
    GroupedKeys(items);
    SortDescKeepsKeys(ByPenalty, g);
    assert ChartData(bugs, f) == SortDesc(ByPenalty, g);
    forall k ensures k in KeysOfGroups(ChartData(bugs, f)) <==> k in Keys(items) {
      assert k in KeysOfGroups(SortDesc(ByPenalty, g)) <==> k in KeysOfGroups(g);
    }
  }

  /** The entries go by non-increasing penalty. */
  lemma ChartDataSorted(bugs: seq<BugWithDetails>, f: BugWithDetails -> Item<Option<Id>>)
    ensures SortedBy(ByPenalty, ChartData(bugs, f))
  {
    SortDescProperties(ByPenalty, Grouped(Map(bugs, f)));
  }

  /**
   * Each entry of the chart is the per-key figure: the number of bugs with
   * its key, the sum of their amounts, and the name of the first of them.
   */
  lemma ChartEntriesArePerKey(bugs: seq<BugWithDetails>, f: BugWithDetails -> Item<Option<Id>>)
    ensures forall g :: g in ChartData(bugs, f) ==>
              g.key in Keys(Map(bugs, f)) && g == GroupFor(Map(bugs, f), g.key)
  {
    var items := Map(bugs, f);
    GroupedIsPerKey(items);
    SortDescProperties(ByPenalty, Grouped(items));
    forall g | g in ChartData(bugs, f) ensures g.key in Keys(items) && g == GroupFor(items, g.key) {
      assert g in multiset(Grouped(items));
      var i :| 0 <= i < |Grouped(items)| && Grouped(items)[i] == g;
    }
  }

  // ---------------------------------------------------------------------
  // The filter controls

  /** The view's filter state: the mode and the two selections. */
  class StatsFilters {
    var filterBy: FilterMode
    var selectedDeveloper: Id
    var selectedSprint: Id

    constructor ()
      ensures filterBy == All && selectedDeveloper == "" && selectedSprint == ""
    {
      filterBy := All;
      selectedDeveloper := "";
      selectedSprint := "";
    }

    /** Choosing a mode also clears both selections. */
    method ChangeMode(mode: FilterMode)
      modifies this
      ensures filterBy == mode && selectedDeveloper == "" && selectedSprint == ""
    {
      filterBy := mode;
      selectedDeveloper := "";
      selectedSprint := "";
    }

    method SelectDeveloper(id: Id)
      modifies this
      ensures selectedDeveloper == id
      ensures filterBy == old(filterBy) && selectedSprint == old(selectedSprint)
    {
      selectedDeveloper := id;
    }

    method SelectSprint(id: Id)
      modifies this
      ensures selectedSprint == id
      ensures filterBy == old(filterBy) && selectedDeveloper == old(selectedDeveloper)
    {
      selectedSprint := id;
    }

    function Filtered(bugs: seq<BugWithDetails>): seq<BugWithDetails>
      reads this
    {
      FilteredBugs(bugs, filterBy, selectedDeveloper, selectedSprint)
    }
  }

  /** Right after a mode change the view shows every bug. */
  lemma ModeChangeShowsAll(bugs: seq<BugWithDetails>, mode: FilterMode)
    ensures FilteredBugs(bugs, mode, "", "") == bugs
  {
    FilteredBugsSpec(bugs, mode, "", "");
  }
}
