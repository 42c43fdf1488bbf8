/**
 * The filtered bug list (components/bug-list-with-filters.tsx): the bugs
 * that pass every filter that is set, in their original order.  A filter
 * counts as set when it is truthy, so an empty string filters nothing.
 */
module BugListWithFilters {
  import opened Wrappers
  import opened Seqs
  import opened Types
  import opened BugFilters
  import BugList

  /** The panel starts with nothing set. */
  const InitialFilters: BugFiltersState := NoFilters

  /** The status text of a bug, `None` when it has none. */
  function StatusText(b: BugWithDetails): Option<string> {
    match b.bug.penalty_status
    case None => None
    case Some(s) => Some(StatusName(s))
  }

  /** The predicate of the list, with its three early returns. */
  predicate Passes(f: BugFiltersState, b: BugWithDetails) {
    if Truthy(f.developer) && b.bug.developer_id != f.developer then false
    else if Truthy(f.sprint) && b.bug.sprint_id != f.sprint then false
    else if Truthy(f.status) && StatusText(b) != f.status then false
    else true
  }

  function PassesFn(f: BugFiltersState): BugWithDetails -> bool {
    b => Passes(f, b)
  }

  function FilteredBugs(bugs: seq<BugWithDetails>, f: BugFiltersState): seq<BugWithDetails> {
    Filter(bugs, PassesFn(f))
  }

  /** A bug matches a filter value when the value is unset or the bug's field equals it. */
  predicate MatchesField(value: Option<string>, field: Option<string>) {
    !Truthy(value) || field == value
  }

  /** The three fields as the filter sees them. */
  predicate MatchesAll(f: BugFiltersState, b: BugWithDetails) {
    MatchesField(f.developer, b.bug.developer_id) &&
    MatchesField(f.sprint, b.bug.sprint_id) &&
    MatchesField(f.status, StatusText(b))
  }

  lemma PassesIsMatchesAll(f: BugFiltersState, b: BugWithDetails)
    ensures Passes(f, b) <==> MatchesAll(f, b)
  {
  }

  /**
   * Soundness and completeness: a bug is listed exactly when it is one of
   * the input bugs and matches every set field; the list keeps the input's
   * order and is no longer than it.
   */
  lemma FilteredBugsSpec(bugs: seq<BugWithDetails>, f: BugFiltersState)
    ensures forall b :: b in FilteredBugs(bugs, f) <==> b in bugs && MatchesAll(f, b)
    ensures IsSubsequence(FilteredBugs(bugs, f), bugs)
    ensures |FilteredBugs(bugs, f)| <= |bugs|
  {
    FilterIsSubsequence(bugs, PassesFn(f));
    forall b | b in bugs && MatchesAll(f, b) ensures b in FilteredBugs(bugs, f) {
      FilterComplete(bugs, PassesFn(f), b);
    }
  }

  /**
   * The list below the panel shows its empty-state message exactly when no
   * bug passes the filters; with nothing set, exactly when there are no bugs.
   */
  lemma EmptyStateIffNoneMatch(bugs: seq<BugWithDetails>, f: BugFiltersState)
    ensures BugList.ShowsEmptyState(FilteredBugs(bugs, f)) <==> forall i :: 0 <= i < |bugs| ==> !Passes(f, bugs[i])
  {
    var r := FilteredBugs(bugs, f);
    if r != [] {
      assert r[0] in r;
      assert r[0] in bugs && Passes(f, r[0]);
    }
    if exists i :: 0 <= i < |bugs| && Passes(f, bugs[i]) {
      var i :| 0 <= i < |bugs| && Passes(f, bugs[i]);
      FilterComplete(bugs, PassesFn(f), bugs[i]);
    }
  }

  /** With nothing set (the initial state, or after a reset) the whole list is shown. */
  lemma NoFiltersShowsAll(bugs: seq<BugWithDetails>)
    ensures FilteredBugs(bugs, InitialFilters) == bugs
  {
    FilterAll(bugs, PassesFn(NoFilters));
  }

  /** An empty-string filter value behaves like `null`. */
  lemma EmptyStringIsNoFilter(bugs: seq<BugWithDetails>, f: BugFiltersState, key: FilterKey)
    requires Field(f, key) == Some("")
    ensures FilteredBugs(bugs, f) == FilteredBugs(bugs, WithField(f, key, None))
  {
    var g := WithField(f, key, None);
    assert Field(g, DeveloperKey) == g.developer && Field(g, SprintKey) == g.sprint && Field(g, StatusKey) == g.status;
    assert Field(f, DeveloperKey) == f.developer && Field(f, SprintKey) == f.sprint && Field(f, StatusKey) == f.status;
    FilterCongruent(bugs, PassesFn(f), PassesFn(g));
  }

  /** Filtering the shown list again with the same filters shows the same list. */
  lemma FilterAgainChangesNothing(bugs: seq<BugWithDetails>, f: BugFiltersState)
    ensures FilteredBugs(FilteredBugs(bugs, f), f) == FilteredBugs(bugs, f)
  {
    FilterIdempotent(bugs, PassesFn(f));
  }
}
