/**
 * The developer leaderboard (components/developer-leaderboard.tsx): for one
 * sprint — the selected one, else the active one — one entry per developer
 * with the number of that developer's bugs in the sprint and their penalty
 * sum, ranked by count and then by penalty.
 */
module Leaderboard {
  import opened Wrappers
  import opened Seqs
  import opened Types
  import opened Grouping

  /** `selectedSprintId || activeSprint?.id || ""` */
  function CurrentSprintId(selected: Id, active: Option<Sprint>): (r: Id)
    ensures selected != "" ==> r == selected
    ensures selected == "" && active.Some? ==> r == active.value.id
    ensures selected == "" && active.None? ==> r == ""
  {
    if selected != "" then selected
    else if active.Some? && active.value.id != "" then active.value.id
    else ""
  }

  /** A bug as the leaderboard sees it: keyed by developer id, "Unknown" when no developer is joined. */
  function EntryItem(b: BugWithDetails): Item<Option<Id>> {
    Item(b.bug.developer_id, OrElse(if b.developer.Some? then Some(b.developer.value.name) else None, "Unknown"), BugAmount(b))
  }

  function SprintBugs(bugs: seq<BugWithDetails>, sprintId: Id): seq<BugWithDetails> {
    Filter(bugs, SprintIs(sprintId))
  }

  /**
   * What the leaderboard lists: nothing until the bugs are loaded or when no
   * sprint is chosen; otherwise the per-developer grouping of the sprint's
   * bugs ranked by count, then penalty.
   */
  function Ranking(bugs: Option<seq<BugWithDetails>>, sprintId: Id): seq<Group<Option<Id>>> {
    if bugs.Some? && sprintId != "" then
      SortDesc(ByCountThenPenalty, Grouped(Map(SprintBugs(bugs.value, sprintId), EntryItem)))
    else []
  }

  /**
   * The computation as the component runs it: filter the sprint's bugs, fill
   * a `Map` keyed by developer id (bumping an existing entry or creating one
   * with count 1), push its values into the list and sort the list.
   */
  method ComputeLeaderboard(bugs: Option<seq<BugWithDetails>>, selectedSprintId: Id, activeSprint: Option<Sprint>)
    returns (leaderboardData: seq<Group<Option<Id>>>)
    ensures leaderboardData == Ranking(bugs, CurrentSprintId(selectedSprintId, activeSprint))
  {
    var currentSprintId := CurrentSprintId(selectedSprintId, activeSprint);
    leaderboardData := [];
    if bugs.Some? && currentSprintId != "" {
      var sprintBugs := SprintBugs(bugs.value, currentSprintId);
      var devMap := new Tally<Option<Id>>();
      var i := 0;
      while i < |sprintBugs|
        invariant 0 <= i <= |sprintBugs|
        invariant devMap.Valid() && devMap.Values() == Grouped(Map(sprintBugs[..i], EntryItem))
      {
        GroupedPrefixStep(sprintBugs, i, EntryItem);
        devMap.Add(EntryItem(sprintBugs[i]));
        i := i + 1;
      }
      assert sprintBugs[..i] == sprintBugs;
      leaderboardData := leaderboardData + devMap.Values();
      assert leaderboardData == Grouped(Map(sprintBugs, EntryItem));
    }
    leaderboardData := SortDesc(ByCountThenPenalty, leaderboardData);
  }

  /** Without loaded bugs, or with no sprint chosen, the leaderboard is empty. */
  lemma EmptyWithoutSprint(bugs: Option<seq<BugWithDetails>>, sprintId: Id)
    requires bugs.None? || sprintId == ""
    ensures Ranking(bugs, sprintId) == []
  {
  }

  /**
   * The counts add up to the number of the sprint's bugs and the penalties to
   * their penalty sum; each developer id has one entry and the ids are those
   * of the sprint's bugs; the ranking is by count, then penalty.
   */
  lemma RankingFacts(bugs: seq<BugWithDetails>, sprintId: Id)
    requires sprintId != ""
    ensures Sum(Ranking(Some(bugs), sprintId), GroupCount) == |SprintBugs(bugs, sprintId)|
    ensures Sum(Ranking(Some(bugs), sprintId), GroupPenalty) == Sum(SprintBugs(bugs, sprintId), BugAmount)
    ensures SortedBy(ByCountThenPenalty, Ranking(Some(bugs), sprintId))
  {
    var items := Map(SprintBugs(bugs, sprintId), EntryItem);
    GroupedTotals(items);
    SortDescProperties(ByCountThenPenalty, Grouped(items));
    SumMap(SprintBugs(bugs, sprintId), EntryItem, ItemAmount, BugAmount);
  }

  /** Some bug of the sprint is assigned to `k`. */
  predicate HasSprintBugBy(bugs: seq<BugWithDetails>, sprintId: Id, k: Option<Id>) {
    exists b :: b in bugs && b.bug.sprint_id == Some(sprintId) && b.bug.developer_id == k
  }

  lemma SprintBugKeyHasBug(bugs: seq<BugWithDetails>, sprintId: Id, k: Option<Id>)
    requires k in Keys(Map(SprintBugs(bugs, sprintId), EntryItem))
    ensures HasSprintBugBy(bugs, sprintId, k)
  {
    var sb := SprintBugs(bugs, sprintId);
    var items := Map(sb, EntryItem);
    var j :| 0 <= j < |items| && Keys(items)[j] == k;
    assert sb[j] in sb;
  }

  lemma SprintBugHasKey(bugs: seq<BugWithDetails>, sprintId: Id, k: Option<Id>)
    requires HasSprintBugBy(bugs, sprintId, k)
    ensures k in Keys(Map(SprintBugs(bugs, sprintId), EntryItem))
  {
    var sb := SprintBugs(bugs, sprintId);
    var b :| b in bugs && b.bug.sprint_id == Some(sprintId) && b.bug.developer_id == k;
    FilterComplete(bugs, SprintIs(sprintId), b);
    var j :| 0 <= j < |sb| && sb[j] == b;
    assert Keys(Map(sb, EntryItem))[j] == k;
  }

  /** The developer ids among a sprint's bugs. */
  lemma SprintBugKeys(bugs: seq<BugWithDetails>, sprintId: Id, k: Option<Id>)
    ensures k in Keys(Map(SprintBugs(bugs, sprintId), EntryItem)) <==> HasSprintBugBy(bugs, sprintId, k)
  {
    if k in Keys(Map(SprintBugs(bugs, sprintId), EntryItem)) {
      SprintBugKeyHasBug(bugs, sprintId, k);
    }
    if HasSprintBugBy(bugs, sprintId, k) {
      SprintBugHasKey(bugs, sprintId, k);
    }
  }

  lemma RankingKeys(bugs: seq<BugWithDetails>, sprintId: Id)
    requires sprintId != ""
    ensures Distinct(KeysOfGroups(Ranking(Some(bugs), sprintId)))
    ensures forall k :: k in KeysOfGroups(Ranking(Some(bugs), sprintId)) <==> HasSprintBugBy(bugs, sprintId, k)
  {
    var items := Map(SprintBugs(bugs, sprintId), EntryItem);
    var g := Grouped(items);
    var r := Ranking(Some(bugs), sprintId);
    assert r == SortDesc(ByCountThenPenalty, g);
    GroupedKeys(items);
    SortDescKeepsKeys(ByCountThenPenalty, g);
    forall k ensures k in KeysOfGroups(r) <==> HasSprintBugBy(bugs, sprintId, k) {
      assert k in KeysOfGroups(r) <==> k in KeysOfGroups(g);
      assert k in KeysOfGroups(g) <==> k in Keys(items);
      SprintBugKeys(bugs, sprintId, k);
    }
  }

  /**
   * Each entry counts its developer's bugs in the sprint, sums their amounts
   * (missing counted as 0) and carries the name from the first of them.
   */
  lemma EntriesArePerDeveloper(bugs: seq<BugWithDetails>, sprintId: Id)
    requires sprintId != ""
    ensures forall e :: e in Ranking(Some(bugs), sprintId) ==>
              var items := Map(SprintBugs(bugs, sprintId), EntryItem);
              e.key in Keys(items) && e == GroupFor(items, e.key)
  {
    var items := Map(SprintBugs(bugs, sprintId), EntryItem);
    GroupedIsPerKey(items);
    SortDescProperties(ByCountThenPenalty, Grouped(items));
    forall e | e in Ranking(Some(bugs), sprintId) ensures e.key in Keys(items) && e == GroupFor(items, e.key) {
      assert e in multiset(Grouped(items));
      var i :| 0 <= i < |Grouped(items)| && Grouped(items)[i] == e;
    }
  }
}
