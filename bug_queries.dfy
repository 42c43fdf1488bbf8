/** The bug query keys, the hooks that read them, and their invalidation (lib/queries/bugs.ts). */
module BugQueries {
  import opened QueryKeys
  import SprintQueries

  const Root: string := "bugs"

  /** The queries the hooks make (every bug, a sprint's bugs, a developer's bugs), and the filtered list the key factory can build but no hook requests. */
  datatype Query = ListQuery | SprintBugs(sprintId: string) | DeveloperBugs(developerId: string) | FilteredList(filters: string)

  function KeyOf(q: Query): Key {
    match q
    case ListQuery => ScopeKey(Root, "list")
    case SprintBugs(id) => EntryKey(Root, "sprint", id)
    case DeveloperBugs(id) => EntryKey(Root, "developer", id)
    case FilteredList(f) => ListKey(Root, f)
  }

  /**
   * Whether the hook fetches: `useBugsBySprint` carries `enabled: !!sprintId`,
   * `useBugsByDeveloper` `enabled: !!developerId`, and `useBugs` always runs.
   */
  predicate Runs(q: Query) {
    match q
    case SprintBugs(id) => Enabled(id)
    case DeveloperBugs(id) => Enabled(id)
    case _ => true
  }

  /**
   * A bug query runs unless it asks for a sprint's or a developer's bugs
   * without an id; those two keys are the only ones never fetched.
   */
  lemma RunsUnlessNoId(q: Query)
    ensures Runs(q) <==> !(q.SprintBugs? && q.sprintId == "") && !(q.DeveloperBugs? && q.developerId == "")
    ensures Runs(q) <==> KeyOf(q) != EntryKey(Root, "sprint", "") && KeyOf(q) != EntryKey(Root, "developer", "")
  {
    match q
    case SprintBugs(id) =>
      ScopesApart(Root, "sprint", "sprint", id, "", "");
      ScopesApart(Root, "sprint", "developer", id, "", "");
    case DeveloperBugs(id) =>
      ScopesApart(Root, "developer", "developer", id, "", "");
      ScopesApart(Root, "developer", "sprint", id, "", "");
    case ListQuery =>
      assert |KeyOf(q)| == 2;
    case FilteredList(f) =>
      ScopesApart(Root, "sprint", "sprint", "", "", f);
      ScopesApart(Root, "developer", "developer", "", "", f);
  }

  /** What each mutation invalidates on success: `all` only; an update does not touch a detail key. */
  function BugInvalidations(m: Mutation): (r: seq<Key>)
    ensures r == [AllKey(Root)]
  {
    Invalidations(Root, m, false)
  }

  /** Every bug mutation (create, update, delete) invalidates `all`, which covers every bug query. */
  lemma MutationsRefreshEverything(m: Mutation, q: Query)
    ensures Covers(BugInvalidations(m)[0], KeyOf(q))
  {
  }

  /** A sprint's bugs and a developer's bugs never share a key, each key is determined by its id, and the lists scope covers neither. */
  lemma KeysApart(a: string, b: string)
    ensures KeyOf(SprintBugs(a)) != KeyOf(DeveloperBugs(b))
    ensures KeyOf(SprintBugs(a)) == KeyOf(SprintBugs(b)) <==> a == b
    ensures KeyOf(DeveloperBugs(a)) == KeyOf(DeveloperBugs(b)) <==> a == b
    ensures !Covers(KeyOf(ListQuery), KeyOf(SprintBugs(a))) && !Covers(KeyOf(ListQuery), KeyOf(DeveloperBugs(a)))
  {
    ScopesApart(Root, "sprint", "developer", a, b, "");
    ScopesApart(Root, "sprint", "sprint", a, b, "");
    ScopesApart(Root, "developer", "developer", a, b, "");
    ScopesApart(Root, "list", "sprint", a, b, "");
    ScopesApart(Root, "list", "developer", a, b, "");
  }

  /** Refreshing the sprints leaves cached bug queries alone, and the other way round. */
  lemma SeparateFromSprints(q: Query, s: SprintQueries.Query)
    ensures !Covers(AllKey(SprintQueries.Root), KeyOf(q)) && !Covers(AllKey(Root), SprintQueries.KeyOf(s))
  {
    DistinctRootsDisjoint(Root, SprintQueries.Root, KeyOf(q), SprintQueries.KeyOf(s));
    assert KeyOf(q)[0] == Str(Root);
    assert SprintQueries.KeyOf(s)[0] == Str(SprintQueries.Root);
  }
}
