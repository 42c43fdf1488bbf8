/**
 * The dashboard page (app/page.tsx): the total penalty of the fetched bugs,
 * the count of sprints active today, and three `Map`s filled in one walk
 * over the fetched rows — by developer name, by sprint name and by status —
 * turned into lists for the charts.
 */
module Dashboard {
  import opened Wrappers
  import opened Seqs
  import opened Types
  import opened Grouping
  import opened Dates

  /**
   * One fetched row: the amount, the status text, and the names of the
   * joined developer and sprint (`None` where the join found nothing).
   */
  datatype ChartRow = ChartRow(
    penalty_amount: Option<int>,
    penalty_status: Option<string>,
    developer: Option<string>,
    sprint: Option<string>)

  function RowAmount(r: ChartRow): int { Amount(r.penalty_amount) }

  /** The sum of the fetched amounts, 0 when nothing was fetched. */
  function TotalPenalty(data: Option<seq<ChartRow>>): int {
    match data
    case None => 0
    case Some(rows) => Sum(rows, RowAmount)
  }

  function DeveloperLabel(r: ChartRow): string { OrElse(r.developer, "Unassigned") }
  function SprintLabel(r: ChartRow): string { OrElse(r.sprint, "No Sprint") }
  function StatusLabel(r: ChartRow): string { OrElse(r.penalty_status, "pending") }

  function DeveloperItem(r: ChartRow): Item<string> {
    Item(DeveloperLabel(r), DeveloperLabel(r), RowAmount(r))
  }

  function SprintItem(r: ChartRow): Item<string> {
    Item(SprintLabel(r), SprintLabel(r), RowAmount(r))
  }

  /** The status map holds counts only. */
  function StatusItem(r: ChartRow): Item<string> {
    Item(StatusLabel(r), StatusLabel(r), 0)
  }

  /** `{ developer: { name }, count, penalty }` and its sprint twin. */
  datatype NamedRow = NamedRow(name: string, count: nat, penalty: int)

  /** `{ penalty_status, count }`. */
  datatype StatusRow = StatusRow(penalty_status: string, count: nat)

  function ToNamed(g: Group<string>): NamedRow { NamedRow(g.key, g.count, g.penalty) }
  function ToStatus(g: Group<string>): StatusRow { StatusRow(g.key, g.count) }

  function NamedCount(r: NamedRow): int { r.count }
  function NamedPenalty(r: NamedRow): int { r.penalty }
  function NamedName(r: NamedRow): string { r.name }
  function StatusCount(r: StatusRow): int { r.count }
  function StatusKey(r: StatusRow): string { r.penalty_status }

  function Rows(data: Option<seq<ChartRow>>): seq<ChartRow> { data.GetOr([]) }

  function ByDeveloper(data: Option<seq<ChartRow>>): seq<NamedRow> {
    Map(Grouped(Map(Rows(data), DeveloperItem)), ToNamed)
  }

  function BySprint(data: Option<seq<ChartRow>>): seq<NamedRow> {
    Map(Grouped(Map(Rows(data), SprintItem)), ToNamed)
  }

  function ByStatus(data: Option<seq<ChartRow>>): seq<StatusRow> {
    Map(Grouped(Map(Rows(data), StatusItem)), ToStatus)
  }

  /**
   * The walk over the fetched rows: each row adds 1 and its amount to its
   * developer name's entry and its sprint name's entry, and 1 to its status's
   * entry; then each map's entries become a list in insertion order.
   */
  method ChartLists(data: Option<seq<ChartRow>>) returns (bugsByDev: seq<NamedRow>, bugsBySprint: seq<NamedRow>, bugsByStatus: seq<StatusRow>)
    ensures bugsByDev == ByDeveloper(data)
    ensures bugsBySprint == BySprint(data)
    ensures bugsByStatus == ByStatus(data)
  {
    var rows := Rows(data);
    var devMap := new Tally<string>();
    var sprintMap := new Tally<string>();
    var statusMap := new Tally<string>();
    var i := 0;
    while i < |rows|
      invariant 0 <= i <= |rows|
      invariant devMap != sprintMap && devMap != statusMap && sprintMap != statusMap
      invariant devMap.Valid() && devMap.Values() == Grouped(Map(rows[..i], DeveloperItem))
      invariant sprintMap.Valid() && sprintMap.Values() == Grouped(Map(rows[..i], SprintItem))
      invariant statusMap.Valid() && statusMap.Values() == Grouped(Map(rows[..i], StatusItem))
    {
      var bug := rows[i];
      GroupedPrefixStep(rows, i, DeveloperItem);
      GroupedPrefixStep(rows, i, SprintItem);
      GroupedPrefixStep(rows, i, StatusItem);
      devMap.Add(DeveloperItem(bug));
      sprintMap.Add(SprintItem(bug));
      statusMap.Add(StatusItem(bug));
      i := i + 1;
    }
    assert rows[..i] == rows;
    bugsByDev := Map(devMap.Values(), ToNamed);
    bugsBySprint := Map(sprintMap.Values(), ToNamed);
    bugsByStatus := Map(statusMap.Values(), ToStatus);
  }

  /**
   * Counts over each list add up to the number of fetched rows, and
   * penalties over the developer list, and over the sprint list, add up to
   * the total penalty.
   */
  lemma ChartListTotals(data: Option<seq<ChartRow>>)
    ensures Sum(ByDeveloper(data), NamedCount) == |Rows(data)|
    ensures Sum(BySprint(data), NamedCount) == |Rows(data)|
    ensures Sum(ByStatus(data), StatusCount) == |Rows(data)|
    ensures Sum(ByDeveloper(data), NamedPenalty) == TotalPenalty(data)
    ensures Sum(BySprint(data), NamedPenalty) == TotalPenalty(data)
  {
    var rows := Rows(data);
    GroupedTotals(Map(rows, DeveloperItem));
    GroupedTotals(Map(rows, SprintItem));
    GroupedTotals(Map(rows, StatusItem));
    SumMap(Grouped(Map(rows, DeveloperItem)), ToNamed, NamedCount, GroupCount);
    SumMap(Grouped(Map(rows, SprintItem)), ToNamed, NamedCount, GroupCount);
    SumMap(Grouped(Map(rows, StatusItem)), ToStatus, StatusCount, GroupCount);
    SumMap(Grouped(Map(rows, DeveloperItem)), ToNamed, NamedPenalty, GroupPenalty);
    SumMap(Grouped(Map(rows, SprintItem)), ToNamed, NamedPenalty, GroupPenalty);
    SumMap(rows, DeveloperItem, ItemAmount, RowAmount);
    SumMap(rows, SprintItem, ItemAmount, RowAmount);
  }

  /**
   * The developer list is keyed by the name shown (so two developers who
   * share a name share an entry, and rows without a developer or with an
   * empty name go under "Unassigned"): its names are distinct, they are
   * exactly the labels of the rows, and each entry counts the rows with its
   * label and sums their amounts.
   */
  lemma DeveloperListByName(data: Option<seq<ChartRow>>)
    ensures Distinct(Map(ByDeveloper(data), NamedName))
    ensures forall n :: n in Map(ByDeveloper(data), NamedName) <==> n in Map(Rows(data), DeveloperLabel)
    ensures forall e :: e in ByDeveloper(data) ==>
              e.count == CountKey(Map(Rows(data), DeveloperItem), e.name) &&
              e.penalty == SumKey(Map(Rows(data), DeveloperItem), e.name)
  {
    NamedListFacts(Rows(data), DeveloperItem, DeveloperLabel);
  }

  /** The sprint list is keyed by sprint name in the same way, with "No Sprint" for rows without one. */
  lemma SprintListByName(data: Option<seq<ChartRow>>)
    ensures Distinct(Map(BySprint(data), NamedName))
    ensures forall n :: n in Map(BySprint(data), NamedName) <==> n in Map(Rows(data), SprintLabel)
    ensures forall e :: e in BySprint(data) ==>
              e.count == CountKey(Map(Rows(data), SprintItem), e.name) &&
              e.penalty == SumKey(Map(Rows(data), SprintItem), e.name)
  {
    NamedListFacts(Rows(data), SprintItem, SprintLabel);
  }

  lemma NamedListFacts(rows: seq<ChartRow>, item: ChartRow -> Item<string>, labelOf: ChartRow -> string)
    requires forall r :: item(r).key == labelOf(r)
    ensures Distinct(Map(Map(Grouped(Map(rows, item)), ToNamed), NamedName))
    ensures forall n :: n in Map(Map(Grouped(Map(rows, item)), ToNamed), NamedName) <==> n in Map(rows, labelOf)
    ensures forall e :: e in Map(Grouped(Map(rows, item)), ToNamed) ==>
              e.count == CountKey(Map(rows, item), e.name) &&
              e.penalty == SumKey(Map(rows, item), e.name)
  {
    NamedListKeys(rows, item, labelOf);
    NamedListCounts(rows, item);
  }

  lemma NamedListKeys(rows: seq<ChartRow>, item: ChartRow -> Item<string>, labelOf: ChartRow -> string)
    requires forall r :: item(r).key == labelOf(r)
    ensures Distinct(Map(Map(Grouped(Map(rows, item)), ToNamed), NamedName))
    ensures forall n :: n in Map(Map(Grouped(Map(rows, item)), ToNamed), NamedName) <==> n in Map(rows, labelOf)
  {
    var items := Map(rows, item);
    var g := Grouped(items);
    GroupedKeys(items);
    assert Map(Map(g, ToNamed), NamedName) == KeysOfGroups(g);
    assert Keys(items) == Map(rows, labelOf);
  }

  lemma NamedListCounts(rows: seq<ChartRow>, item: ChartRow -> Item<string>)
    ensures forall e :: e in Map(Grouped(Map(rows, item)), ToNamed) ==>
              e.count == CountKey(Map(rows, item), e.name) &&
              e.penalty == SumKey(Map(rows, item), e.name)
  {
    var items := Map(rows, item);
    var g := Grouped(items);
    GroupedIsPerKey(items);
    DedupProperties(Keys(items));
    forall e | e in Map(g, ToNamed)
      ensures e.count == CountKey(items, e.name) && e.penalty == SumKey(items, e.name)
    {
      var i :| 0 <= i < |g| && Map(g, ToNamed)[i] == e;
      assert e == ToNamed(g[i]);
    }
  }

  /** The status list has one entry per status text, rows without a status counted under "pending". */
  lemma StatusListByLabel(data: Option<seq<ChartRow>>)
    ensures Distinct(Map(ByStatus(data), StatusKey))
    ensures forall s :: s in Map(ByStatus(data), StatusKey) <==> s in Map(Rows(data), StatusLabel)
    ensures forall e :: e in ByStatus(data) ==> e.count == CountKey(Map(Rows(data), StatusItem), e.penalty_status)
  {
    var items := Map(Rows(data), StatusItem);
    var g := Grouped(items);
    GroupedKeys(items);
    GroupedIsPerKey(items);
    assert Map(ByStatus(data), StatusKey) == KeysOfGroups(g);
    assert Keys(items) == Map(Rows(data), StatusLabel);
  }

  /** The fallback labels. */
  lemma Fallbacks(r: ChartRow)
    ensures (r.developer.None? || r.developer == Some("")) ==> DeveloperLabel(r) == "Unassigned"
    ensures (r.sprint.None? || r.sprint == Some("")) ==> SprintLabel(r) == "No Sprint"
    ensures r.penalty_status.None? ==> StatusLabel(r) == "pending"
  {
  }

  /** Nothing fetched: no penalty and three empty lists. */
  lemma NoData()
    ensures TotalPenalty(None) == 0 && TotalPenalty(Some([])) == 0
    ensures ByDeveloper(None) == [] && BySprint(None) == [] && ByStatus(None) == []
    ensures ByDeveloper(Some([])) == [] && BySprint(Some([])) == [] && ByStatus(Some([])) == []
  {
  }

  // ---------------------------------------------------------------------
  // Active sprints

  /**
   * The sprint count on the dashboard: a sprint is active on `today` (the
   * UTC date of the clock) when its start date is on or before it and its
   * end date on or after it.  Dates that do not read as dates match nothing.
   */
  predicate ActiveOn(today: CalendarDate, s: Sprint) {
    match (ParseIsoDate(s.start_date), ParseIsoDate(s.end_date))
    case (Some(start), Some(end)) => DateAtMost(start, today) && DateAtMost(today, end)
    case _ => false
  }

  function ActiveSprints(sprints: seq<Sprint>, today: CalendarDate): nat {
    |Filter(sprints, s => ActiveOn(today, s))|
  }

  /** The count is of the sprints whose range holds today, and no more than all of them. */
  lemma ActiveSprintsFacts(sprints: seq<Sprint>, today: CalendarDate)
    ensures ActiveSprints(sprints, today) <= |sprints|
    ensures ActiveSprints(sprints, today) == 0 <==> forall i :: 0 <= i < |sprints| ==> !ActiveOn(today, sprints[i])
  {
    var p := s => ActiveOn(today, s);
    if exists i :: 0 <= i < |sprints| && ActiveOn(today, sprints[i]) {
      var i :| 0 <= i < |sprints| && ActiveOn(today, sprints[i]);
      FilterComplete(sprints, p, sprints[i]);
    }
    if forall i :: 0 <= i < |sprints| ==> !ActiveOn(today, sprints[i]) {
      var r := Filter(sprints, p);
      if r != [] {
        assert r[0] in sprints;
      }
    }
  }
}
