/** The developer query keys, the hooks that read them, and their invalidation (lib/queries/developers.query.ts). */
module DeveloperQueries {
  import opened QueryKeys

  const Root: string := "developers"

  /** The queries the hooks make (the list, one developer by id), and the filtered list the key factory can build but no hook requests. */
  datatype Query = ListQuery | DetailQuery(id: string) | FilteredList(filters: string)

  function KeyOf(q: Query): Key {
    match q
    case ListQuery => ScopeKey(Root, "list")
    case DetailQuery(id) => EntryKey(Root, "detail", id)
    case FilteredList(f) => ListKey(Root, f)
  }

  /** Whether the hook fetches: `useDeveloper` carries `enabled: !!id`, the list always runs. */
  predicate Runs(q: Query) {
    match q
    case DetailQuery(id) => Enabled(id)
    case _ => true
  }

  /** A developer query runs unless it asks for a developer without an id, whose key is then never fetched. */
  lemma RunsUnlessNoId(q: Query)
    ensures Runs(q) <==> !(q.DetailQuery? && q.id == "")
    ensures Runs(q) <==> KeyOf(q) != [Str("developers"), Str("detail"), Str("")]
  {
    match q
    case DetailQuery(id) =>
      ScopesApart(Root, "detail", "detail", id, "", "");
    case ListQuery =>
      assert |KeyOf(q)| == 2;
    case FilteredList(f) =>
      ScopesApart(Root, "detail", "detail", "", "", f);
  }

  /** What each mutation invalidates on success: `all`, and after an update also `detail(data.id)`. */
  function DeveloperInvalidations(m: Mutation): (r: seq<Key>)
    ensures |r| >= 1 && r[0] == [Str("developers")]
    ensures m.Update? ==> |r| == 2 && r[1] == KeyOf(DetailQuery(m.id))
    ensures !m.Update? ==> |r| == 1
  {
    Invalidations(Root, m, true)
  }

  /** Every mutation refreshes every developer query. */
  lemma MutationsRefreshEverything(m: Mutation, q: Query)
    ensures Covers(DeveloperInvalidations(m)[0], KeyOf(q))
  {
  }

  /** Detail keys tell ids apart, and the list scope and the detail scope cover none of each other's keys. */
  lemma KeysApart(a: string, b: string, f: string)
    ensures KeyOf(DetailQuery(a)) == KeyOf(DetailQuery(b)) <==> a == b
    ensures !Covers(KeyOf(ListQuery), KeyOf(DetailQuery(a))) && !Covers(ScopeKey(Root, "detail"), KeyOf(FilteredList(f)))
    ensures !Covers(ScopeKey(Root, "detail"), KeyOf(ListQuery))
  {
    ScopesApart(Root, "detail", "detail", a, b, f);
    ScopesApart(Root, "list", "detail", a, b, f);
    ScopesApart(Root, "detail", "list", a, b, f);
  }
}
