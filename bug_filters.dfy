/**
 * The bug filter panel (components/bug-filters.tsx): three optional filter
 * values, a change handler that replaces one of them, a reset, and the
 * "active filters" indicator.  Each change is also passed to the parent.
 */
module BugFilters {
  import opened Wrappers
  import opened Types

  /** `{ developer, sprint, status }`, each `null` when not filtering. */
  datatype BugFiltersState = BugFiltersState(developer: Option<string>, sprint: Option<string>, status: Option<string>)

  datatype FilterKey = DeveloperKey | SprintKey | StatusKey

  const NoFilters: BugFiltersState := BugFiltersState(None, None, None)

  function Field(f: BugFiltersState, key: FilterKey): Option<string> {
    match key
    case DeveloperKey => f.developer
    case SprintKey => f.sprint
    case StatusKey => f.status
  }

  /** `{ ...filters, [key]: value }`: only `key` takes the new value. */
  function WithField(f: BugFiltersState, key: FilterKey, value: Option<string>): (r: BugFiltersState)
    ensures Field(r, key) == value
    ensures forall k :: k != key ==> Field(r, k) == Field(f, k)
  {
    match key
    case DeveloperKey => f.(developer := value)
    case SprintKey => f.(sprint := value)
    case StatusKey => f.(status := value)
  }

  /** What a select shows for a field: `value || "all"`. */
  function ShownValue(o: Option<string>): string {
    if o.Some? && o.value != "" then o.value else "all"
  }

  /** Choosing the shown item again stores the same filter (for values other than "" and "all"). */
  lemma SelectShownRoundTrip(o: Option<string>)
    requires o.None? || (o.value != "" && o.value != "all")
    ensures SelectValue(ShownValue(o)) == o
  {
  }

  /** `Object.values(filters).some(v => v !== null)` */
  predicate HasActiveFilters(f: BugFiltersState) {
    f.developer.Some? || f.sprint.Some? || f.status.Some?
  }

  function CountSome(o: Option<string>): nat { if o.Some? then 1 else 0 }

  /** The badge number: how many fields are not null. */
  function ActiveFilterCount(f: BugFiltersState): (n: nat)
    ensures n <= 3
    ensures n == 0 <==> !HasActiveFilters(f)
    ensures n == 3 <==> f.developer.Some? && f.sprint.Some? && f.status.Some?
  {
    CountSome(f.developer) + CountSome(f.sprint) + CountSome(f.status)
  }

  /** The reset button is disabled exactly when no filter is set. */
  predicate ResetDisabled(f: BugFiltersState) {
    !HasActiveFilters(f)
  }

  class BugFiltersPanel {
    var filters: BugFiltersState
    /** Every state handed to `onFilterChange`, oldest first. */
    var notified: seq<BugFiltersState>

    constructor ()
      ensures filters == NoFilters && notified == []
    {
      filters := NoFilters;
      notified := [];
    }

    method HandleFilterChange(key: FilterKey, value: Option<string>)
      modifies this
      ensures filters == WithField(old(filters), key, value)
      ensures notified == old(notified) + [filters]
    {
      var newFilters := WithField(filters, key, value);
      filters := newFilters;
      notified := notified + [newFilters];
    }

    method HandleReset()
      modifies this
      ensures filters == NoFilters
      ensures notified == old(notified) + [NoFilters]
    {
      filters := NoFilters;
      notified := notified + [NoFilters];
    }
  }

  /** After a reset nothing is active and the reset button is disabled. */
  lemma ResetClearsEverything()
    ensures !HasActiveFilters(NoFilters) && ActiveFilterCount(NoFilters) == 0 && ResetDisabled(NoFilters)
  {
  }

  /** Choosing a concrete value makes a filter active; choosing "all" on the only set field clears it. */
  lemma ChoosingActivates(f: BugFiltersState, key: FilterKey, v: string)
    ensures v != "all" ==> HasActiveFilters(WithField(f, key, SelectValue(v)))
    ensures v == "all" && (forall k :: k != key ==> Field(f, k).None?) ==> !HasActiveFilters(WithField(f, key, SelectValue(v)))
  {
    var r := WithField(f, key, SelectValue(v));
    assert Field(r, DeveloperKey) == r.developer && Field(r, SprintKey) == r.sprint && Field(r, StatusKey) == r.status;
    assert Field(f, DeveloperKey) == f.developer && Field(f, SprintKey) == f.sprint && Field(f, StatusKey) == f.status;
  }
}
