/** The sprint query keys, the hooks that read them, and their invalidation (lib/queries/sprints.ts). */
module SprintQueries {
  import opened QueryKeys

  const Root: string := "sprints"

  /** The queries the hooks make (the list, the active sprint, one sprint by id), and the filtered list the key factory can build but no hook requests. */
  datatype Query = ListQuery | ActiveQuery | DetailQuery(id: string) | FilteredList(filters: string)

  function KeyOf(q: Query): Key {
    match q
    case ListQuery => ScopeKey(Root, "list")
    case ActiveQuery => ScopeKey(Root, "active")
    case DetailQuery(id) => EntryKey(Root, "detail", id)
    case FilteredList(f) => ListKey(Root, f)
  }

  /** Whether the hook fetches: `useSprint` carries `enabled: !!id`, the others always run. */
  predicate Runs(q: Query) {
    match q
    case DetailQuery(id) => Enabled(id)
    case _ => true
  }

  /** A sprint query runs unless it asks for a sprint without an id; that is the one key never fetched. */
  lemma RunsUnlessNoId(q: Query)
    ensures Runs(q) <==> !(q.DetailQuery? && q.id == "")
    ensures Runs(q) <==> KeyOf(q) != EntryKey(Root, "detail", "")
  {
    match q
    case DetailQuery(id) =>
      ScopesApart(Root, "detail", "detail", id, "", "");
    case ListQuery =>
      assert KeyOf(q) != EntryKey(Root, "detail", "") by {
        assert |KeyOf(q)| == 2;
      }
    case ActiveQuery =>
      assert KeyOf(q) != EntryKey(Root, "detail", "") by {
        assert |KeyOf(q)| == 2;
      }
    case FilteredList(f) =>
      ScopesApart(Root, "detail", "detail", "", "", f);
  }

  /** What each mutation invalidates on success: `all`, and after an update also `detail(data.id)`. */
  function SprintInvalidations(m: Mutation): (r: seq<Key>)
    ensures |r| >= 1 && r[0] == AllKey(Root)
    ensures m.Update? ==> r == [AllKey(Root), KeyOf(DetailQuery(m.id))]
    ensures !m.Update? ==> r == [AllKey(Root)]
  {
    Invalidations(Root, m, true)
  }

  /** Every mutation refreshes every sprint query, because every key starts with `all`. */
  lemma MutationsRefreshEverything(m: Mutation, q: Query)
    ensures Covers(SprintInvalidations(m)[0], KeyOf(q))
  {
  }

  /** The list, detail and active scopes cover none of each other's keys, and detail keys tell ids apart. */
  lemma KeysApart(a: string, b: string, f: string)
    ensures KeyOf(DetailQuery(a)) == KeyOf(DetailQuery(b)) <==> a == b
    ensures !Covers(KeyOf(ListQuery), KeyOf(DetailQuery(a))) && !Covers(KeyOf(ActiveQuery), KeyOf(DetailQuery(a)))
    ensures !Covers(ScopeKey(Root, "detail"), KeyOf(FilteredList(f))) && !Covers(KeyOf(ActiveQuery), KeyOf(FilteredList(f)))
    ensures !Covers(KeyOf(ListQuery), KeyOf(ActiveQuery)) && !Covers(KeyOf(ActiveQuery), KeyOf(ListQuery))
  {
    ScopesApart(Root, "detail", "detail", a, b, f);
    ScopesApart(Root, "list", "detail", a, b, f);
    ScopesApart(Root, "active", "detail", a, b, f);
    ScopesApart(Root, "detail", "list", a, b, f);
    ScopesApart(Root, "list", "active", a, b, f);
    ScopesApart(Root, "active", "list", a, b, f);
  }
}
