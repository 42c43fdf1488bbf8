/**
 * Query keys of the data-fetching cache (the three files under lib/queries): arrays of
 * strings and, for filtered lists, a `{ filters }` object.  Invalidating a
 * key refreshes every cached query whose key starts with it.
 *
 * The three key factories share one shape, defined here once for a family
 * named by its root: `all` is `[root]`, `lists()`, `details()` and the like
 * are `[...all, tag]`, an entry such as `detail(id)` or `bySprint(id)` is
 * `[...all, tag, id]`, and `list(filters)` is `[...lists(), { filters }]`.
 */
module QueryKeys {
  datatype KeyPart = Str(s: string) | Filters(filters: string)

  type Key = seq<KeyPart>

  /** Invalidating `filter` refreshes the query with key `k` exactly when `filter` is a prefix of `k`. */
  predicate Covers(filter: Key, k: Key) {
    filter <= k
  }

  /** `enabled: !!id`: a query by id runs only for a non-empty id. */
  predicate Enabled(id: string) {
    id != ""
  }

  /** `all`. */
  function AllKey(root: string): Key {
    [Str(root)]
  }

  /** `[...all, tag]`: one scope of the family. */
  function ScopeKey(root: string, tag: string): (k: Key)
    ensures Covers(AllKey(root), k) && |k| == 2 && k[1] == Str(tag)
  {
    AllKey(root) + [Str(tag)]
  }

  /** `[...all, tag, id]`: one entry of a scope. */
  function EntryKey(root: string, tag: string, id: string): (k: Key)
    ensures Covers(ScopeKey(root, tag), k) && |k| == 3 && k[2] == Str(id)
  {
    ScopeKey(root, tag) + [Str(id)]
  }

  /** `[...lists(), { filters }]`. */
  function ListKey(root: string, filters: string): (k: Key)
    ensures Covers(ScopeKey(root, "list"), k) && |k| == 3 && k[2] == Filters(filters)
  {
    ScopeKey(root, "list") + [Filters(filters)]
  }

  /**
   * Within a family, scopes with different tags cover none of each other's
   * keys, and an entry key tells its id apart.
   */
  lemma ScopesApart(root: string, t1: string, t2: string, a: string, b: string, f: string)
    ensures t1 != t2 ==> !Covers(ScopeKey(root, t1), EntryKey(root, t2, a)) && !Covers(ScopeKey(root, t1), ScopeKey(root, t2))
    ensures t1 != "list" ==> !Covers(ScopeKey(root, t1), ListKey(root, f))
    ensures EntryKey(root, t1, a) == EntryKey(root, t2, b) <==> t1 == t2 && a == b
    ensures ListKey(root, f) != EntryKey(root, t1, a)
  {
    var e1, e2 := EntryKey(root, t1, a), EntryKey(root, t2, b);
    if e1 == e2 {
      assert e1[1] == Str(t1) && e2[1] == Str(t2);
      assert e1[2] == Str(a) && e2[2] == Str(b);
    }
    assert ListKey(root, f)[2] == Filters(f);
    if t1 != t2 {
      assert ScopeKey(root, t1)[1] == Str(t1) && EntryKey(root, t2, a)[1] == Str(t2);
    }
    if t1 != "list" {
      assert ListKey(root, f)[1] == Str("list");
    }
  }

  /** Keys under two different roots never cover one another, so each family is refreshed on its own. */
  lemma DistinctRootsDisjoint(a: string, b: string, k1: Key, k2: Key)
    requires a != b && Covers(AllKey(a), k1) && Covers(AllKey(b), k2)
    ensures !Covers(k1, k2) && !Covers(k2, k1)
  {
    assert k1[0] == Str(a) && k2[0] == Str(b);
  }

  /** The three mutations every family has. */
  datatype Mutation = Create | Update(id: string) | Delete

  /**
   * The keys a successful mutation invalidates: always `all`, and, in the
   * families whose update also invalidates `detail(data.id)`, that key
   * after an update.
   */
  function Invalidations(root: string, m: Mutation, updateRefreshesDetail: bool): (r: seq<Key>)
    ensures |r| >= 1 && r[0] == AllKey(root)
    ensures updateRefreshesDetail && m.Update? ==> |r| == 2 && r[1] == EntryKey(root, "detail", m.id)
    ensures !(updateRefreshesDetail && m.Update?) ==> |r| == 1
  {
    if updateRefreshesDetail && m.Update? then [AllKey(root), EntryKey(root, "detail", m.id)] else [AllKey(root)]
  }
}
