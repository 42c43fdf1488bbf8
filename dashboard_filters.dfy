/**
 * The dashboard's filter bar (components/dashboard-filters.tsx): the
 * selected developer and sprint live in the page's query parameters; a
 * change sets or deletes one parameter and navigates, "Clear" navigates to
 * the bare page.
 */
module DashboardFilters {
  import opened Wrappers
  import opened Types

  /** The query parameters, one value per name. */
  type Params = map<string, string>

  /** `searchParams.get(name)`: `null` when the parameter is absent. */
  function Get(params: Params, name: string): (r: Option<string>)
    ensures r.Some? <==> name in params
    ensures r.Some? ==> r.value == params[name]
  {
    if name in params then Some(params[name]) else None
  }

  function SelectedDeveloper(params: Params): Option<string> { Get(params, "developer") }
  function SelectedSprint(params: Params): Option<string> { Get(params, "sprint") }

  /** The parameters after `updateFilter(key, value)`: set when `value` is truthy, deleted otherwise. */
  function WithFilter(params: Params, key: string, value: Option<string>): (r: Params)
    ensures Truthy(value) ==> key in r && r[key] == value.value
    ensures !Truthy(value) ==> key !in r
    ensures forall k :: k != key ==> (k in r <==> k in params)
    ensures forall k :: k != key && k in params ==> r[k] == params[k]
  {
    if Truthy(value) then params[key := value.value] else params - {key}
  }

  /** `hasFilters`: either parameter present and non-empty. */
  predicate HasFilters(params: Params) {
    Truthy(SelectedDeveloper(params)) || Truthy(SelectedSprint(params))
  }

  /** The page's address as the filter bar changes it. */
  class DashboardUrl {
    var params: Params

    constructor (initial: Params)
      ensures params == initial
    {
      params := initial;
    }

    method UpdateFilter(key: string, value: Option<string>)
      modifies this
      ensures params == WithFilter(old(params), key, value)
    {
      var next := params;
      if Truthy(value) {
        next := next[key := value.value];
      } else {
        next := next - {key};
      }
      params := next;
    }

    method ClearFilters()
      modifies this
      ensures params == map[]
    {
      params := map[];
    }
  }

  /** Choosing a developer shows it as selected and leaves the sprint selection as it was; "all" removes it. */
  lemma ChooseDeveloper(params: Params, v: string)
    ensures v != "all" && v != "" ==> SelectedDeveloper(WithFilter(params, "developer", SelectValue(v))) == Some(v)
    ensures v == "all" ==> SelectedDeveloper(WithFilter(params, "developer", SelectValue(v))) == None
    ensures SelectedSprint(WithFilter(params, "developer", SelectValue(v))) == SelectedSprint(params)
  {
  }

  lemma ChooseSprint(params: Params, v: string)
    ensures v != "all" && v != "" ==> SelectedSprint(WithFilter(params, "sprint", SelectValue(v))) == Some(v)
    ensures v == "all" ==> SelectedSprint(WithFilter(params, "sprint", SelectValue(v))) == None
    ensures SelectedDeveloper(WithFilter(params, "sprint", SelectValue(v))) == SelectedDeveloper(params)
  {
  }

  /** "Clear" is offered exactly when a filter is set, and afterwards none is. */
  lemma HasFiltersIff(params: Params)
    ensures HasFilters(params) <==>
              ("developer" in params && params["developer"] != "") || ("sprint" in params && params["sprint"] != "")
    ensures !HasFilters(map[])
  {
  }
}
