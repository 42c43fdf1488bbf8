/**
 * Grouping bug records by a key with a count and a penalty sum per key, as
 * the statistics view, the dashboard and the leaderboard each do with a
 * JavaScript object or `Map` that they update while walking the bugs.
 *
 * `Grouped` is the specification: walking the items left to right, the
 * first item of a key creates its group (taking that item's name) at the end
 * of the list, and every item adds 1 to its group's count and its amount to
 * the group's penalty.  This is JavaScript's insertion order for a `Map` and
 * for an object whose keys are not integer-like.  `GroupedIsPerKey` proves
 * that it is the independent per-key description, and `Tally` is the
 * mutable dictionary the views update in place.
 */
module Grouping {
  import opened Seqs

  /** One record as a view sees it: its key, its display name and its amount. */
  datatype Item<K> = Item(key: K, name: string, amount: int)

  /** One group: its key, the name it was created with, how many items, the sum of their amounts. */
  datatype Group<K> = Group(key: K, name: string, count: nat, penalty: int)

  function ItemKey<K>(it: Item<K>): K { it.key }
  function ItemAmount<K>(it: Item<K>): int { it.amount }
  function GroupKey<K>(g: Group<K>): K { g.key }
  function GroupCount<K>(g: Group<K>): int { g.count }
  function GroupPenalty<K>(g: Group<K>): int { g.penalty }

  function NewGroup<K>(it: Item<K>): Group<K> {
    Group(it.key, it.name, 1, it.amount)
  }

  function Bump<K>(g: Group<K>, it: Item<K>): Group<K> {
    g.(count := g.count + 1, penalty := g.penalty + it.amount)
  }

  /** Position of the group with key `k`, or `|gs|` when there is none. */
  function FindKey<K(==)>(gs: seq<Group<K>>, k: K): (i: nat)
    ensures i <= |gs|
    ensures i < |gs| ==> gs[i].key == k
    ensures forall j :: 0 <= j < i ==> gs[j].key != k
  {
    if gs == [] then 0
    else if gs[0].key == k then 0
    else 1 + FindKey(gs[1..], k)
  }

  /** One step of the walk: bump the item's group, or append a new one. */
  function AddItem<K(==)>(gs: seq<Group<K>>, it: Item<K>): seq<Group<K>> {
    var i := FindKey(gs, it.key);
    if i < |gs| then gs[i := Bump(gs[i], it)] else gs + [NewGroup(it)]
  }

  function Grouped<K(==)>(items: seq<Item<K>>): seq<Group<K>> {
    if items == [] then []
    else AddItem(Grouped(items[..|items| - 1]), items[|items| - 1])
  }

  /** The walk takes one more item by one more step. */
  lemma GroupedSnoc<K>(items: seq<Item<K>>, x: Item<K>)
    ensures Grouped(items + [x]) == AddItem(Grouped(items), x)
  {
    assert (items + [x])[..|items|] == items;
  }

  /** Walking the first `i + 1` records of `s` is walking the first `i` and adding record `i`. */
  lemma GroupedPrefixStep<A, K>(s: seq<A>, i: nat, f: A -> Item<K>)
    requires i < |s|
    ensures Grouped(Map(s[..i + 1], f)) == AddItem(Grouped(Map(s[..i], f)), f(s[i]))
  {
    MapSnoc(s, i, f);
    GroupedSnoc(Map(s[..i], f), f(s[i]));
  }

  // ---------------------------------------------------------------------
  // The per-key reference description

  function Keys<K>(items: seq<Item<K>>): seq<K> {
    Map(items, ItemKey)
  }

  /** The distinct elements of `s`, each at its first occurrence. */
  function Dedup<T(==)>(s: seq<T>): seq<T> {
    if s == [] then []
    else if s[|s| - 1] in s[..|s| - 1] then Dedup(s[..|s| - 1])
    else Dedup(s[..|s| - 1]) + [s[|s| - 1]]
  }

  predicate Distinct<T(==)>(s: seq<T>) {
    forall i, j :: 0 <= i < j < |s| ==> s[i] != s[j]
  }

  lemma {:induction false} DedupProperties<T>(s: seq<T>)
    ensures Distinct(Dedup(s))
    ensures forall x :: x in Dedup(s) <==> x in s
  {
    if s != [] {
      DedupProperties(s[..|s| - 1]);
      assert s == s[..|s| - 1] + [s[|s| - 1]];
    }
  }

  /** How many items have key `k`. */
  function CountKey<K(==)>(items: seq<Item<K>>, k: K): nat {
    if items == [] then 0
    else CountKey(items[..|items| - 1], k) + (if items[|items| - 1].key == k then 1 else 0)
  }

  /** The sum of the amounts of the items with key `k`. */
  function SumKey<K(==)>(items: seq<Item<K>>, k: K): int {
    if items == [] then 0
    else SumKey(items[..|items| - 1], k) + (if items[|items| - 1].key == k then items[|items| - 1].amount else 0)
  }

  /** The name of the first item with key `k`. */
  function FirstName<K(==)>(items: seq<Item<K>>, k: K): string
    requires k in Keys(items)
  {
    var init := items[..|items| - 1];
    assert Keys(items) == Keys(init) + [items[|items| - 1].key];
    if k in Keys(init) then FirstName(init, k) else items[|items| - 1].name
  }

  lemma {:induction false} FirstNameIsFirst<K>(items: seq<Item<K>>, k: K)
    requires k in Keys(items)
    ensures exists i :: 0 <= i < |items| && items[i].key == k && items[i].name == FirstName(items, k)
                        && forall j :: 0 <= j < i ==> items[j].key != k
  {
    var init := items[..|items| - 1];
    assert Keys(items) == Keys(init) + [items[|items| - 1].key];
    if k in Keys(init) {
      FirstNameIsFirst(init, k);
      var i :| 0 <= i < |init| && init[i].key == k && init[i].name == FirstName(init, k)
               && forall j :: 0 <= j < i ==> init[j].key != k;
      assert items[i] == init[i];
    } else {
      var i := |items| - 1;
      forall j | 0 <= j < i ensures items[j].key != k {
        assert Keys(init)[j] == init[j].key;
      }
    }
  }

  /** The group the per-key description gives for key `k`. */
  function GroupFor<K(==)>(items: seq<Item<K>>, k: K): Group<K>
    requires k in Keys(items)
  {
    Group(k, FirstName(items, k), CountKey(items, k), SumKey(items, k))
  }

  /** `Grouped(items)` is the per-key description of `items`. */
  predicate PerKey<K(==)>(items: seq<Item<K>>) {
    |Grouped(items)| == |Dedup(Keys(items))| &&
    forall i :: 0 <= i < |Grouped(items)| ==>
      Dedup(Keys(items))[i] in Keys(items) &&
      Grouped(items)[i] == GroupFor(items, Dedup(Keys(items))[i])
  }

  /** The per-key group of a key after one more item. */
  lemma GroupForStep<K>(items: seq<Item<K>>, k: K)
    requires items != [] && k in Keys(items[..|items| - 1])
    ensures k in Keys(items)
    ensures var init, x := items[..|items| - 1], items[|items| - 1];
            GroupFor(items, k) == if k == x.key then Bump(GroupFor(init, k), x) else GroupFor(init, k)
  {
    var init := items[..|items| - 1];
    assert Keys(items) == Keys(init) + [items[|items| - 1].key];
  }

  /** The last item's key was seen before: its group is bumped in place. */
  lemma PerKeyStepSeen<K>(items: seq<Item<K>>)
    requires items != []
    requires PerKey(items[..|items| - 1])
    requires items[|items| - 1].key in Keys(items[..|items| - 1])
    ensures PerKey(items)
  {
    var init, x := items[..|items| - 1], items[|items| - 1];
    DedupProperties(Keys(init));
    var G, D0 := Grouped(init), Dedup(Keys(init));
    assert Keys(items) == Keys(init) + [x.key];
    assert Keys(items)[..|items| - 1] == Keys(init);
    var D := Dedup(Keys(items));
    assert D == D0;
    var p :| 0 <= p < |D0| && D0[p] == x.key;
    assert G[p].key == x.key;
    assert FindKey(G, x.key) == p;
    var r := Grouped(items);
    assert r == AddItem(G, x);
    assert r == G[p := Bump(G[p], x)];
    forall j | 0 <= j < |r|
      ensures D[j] in Keys(items) && r[j] == GroupFor(items, D[j])
    {
      assert D0[j] in Keys(init);
      GroupForStep(items, D0[j]);
    }
  }

  /** The per-key group of a key first seen at the last item. */
  lemma GroupForNew<K>(items: seq<Item<K>>)
    requires items != [] && items[|items| - 1].key !in Keys(items[..|items| - 1])
    ensures items[|items| - 1].key in Keys(items)
    ensures GroupFor(items, items[|items| - 1].key) == NewGroup(items[|items| - 1])
  {
    var init := items[..|items| - 1];
    assert Keys(items) == Keys(init) + [items[|items| - 1].key];
    CountKeyAbsent(init, items[|items| - 1].key);
  }

  /** The last item's key is new: a group for it is appended. */
  lemma PerKeyStepNew<K>(items: seq<Item<K>>)
    requires items != []
    requires PerKey(items[..|items| - 1])
    requires items[|items| - 1].key !in Keys(items[..|items| - 1])
    ensures PerKey(items)
  {
    var init, x := items[..|items| - 1], items[|items| - 1];
    var G, D0 := Grouped(init), Dedup(Keys(init));
    NewKeyAppends(items);
    var D, r := Dedup(Keys(items)), Grouped(items);
    GroupForNew(items);
    forall j | 0 <= j < |G|
      ensures D[j] in Keys(items) && r[j] == GroupFor(items, D[j])
    {
      assert r[j] == G[j] && D[j] == D0[j];
      OlderGroupKept(items, j);
    }
    assert r[|G|] == GroupFor(items, D[|G|]);
  }

  /** A new key is appended both to the distinct keys and, as a new group, to the walk. */
  lemma NewKeyAppends<K>(items: seq<Item<K>>)
    requires items != []
    requires PerKey(items[..|items| - 1])
    requires items[|items| - 1].key !in Keys(items[..|items| - 1])
    ensures Dedup(Keys(items)) == Dedup(Keys(items[..|items| - 1])) + [items[|items| - 1].key]
    ensures Grouped(items) == Grouped(items[..|items| - 1]) + [NewGroup(items[|items| - 1])]
  {
    var init, x := items[..|items| - 1], items[|items| - 1];
    DedupProperties(Keys(init));
    var G, D0 := Grouped(init), Dedup(Keys(init));
    assert Keys(items) == Keys(init) + [x.key];
    assert Keys(items)[..|items| - 1] == Keys(init);
    forall j | 0 <= j < |G| ensures G[j].key != x.key {
      assert G[j].key == D0[j];
    }
    assert FindKey(G, x.key) == |G|;
    assert Grouped(items) == AddItem(G, x);
  }

  /** An item with a new key leaves the groups of the earlier keys as they were. */
  lemma OlderGroupKept<K>(items: seq<Item<K>>, j: nat)
    requires items != []
    requires PerKey(items[..|items| - 1])
    requires items[|items| - 1].key !in Keys(items[..|items| - 1])
    requires j < |Grouped(items[..|items| - 1])|
    ensures Dedup(Keys(items[..|items| - 1]))[j] in Keys(items)
    ensures Grouped(items[..|items| - 1])[j] == GroupFor(items, Dedup(Keys(items[..|items| - 1]))[j])
  {
    var init := items[..|items| - 1];
    var k := Dedup(Keys(init))[j];
    assert k in Keys(init);
    GroupForStep(items, k);
  }

  /**
   * `Grouped` has one group per distinct key, in first-occurrence order, and
   * each group is that key's count, penalty sum and first name.
   */
  lemma {:induction false} GroupedIsPerKey<K>(items: seq<Item<K>>)
    ensures |Grouped(items)| == |Dedup(Keys(items))|
    ensures forall i :: 0 <= i < |Grouped(items)| ==>
              Dedup(Keys(items))[i] in Keys(items) &&
              Grouped(items)[i] == GroupFor(items, Dedup(Keys(items))[i])
  {
    if items != [] {
      var init := items[..|items| - 1];
      GroupedIsPerKey(init);
      if items[|items| - 1].key in Keys(init) {
        PerKeyStepSeen(items);
      } else {
        PerKeyStepNew(items);
      }
    }
  }

  lemma {:induction false} CountKeyAbsent<K>(items: seq<Item<K>>, k: K)
    requires k !in Keys(items)
    ensures CountKey(items, k) == 0 && SumKey(items, k) == 0
  {
    if items != [] {
      var init := items[..|items| - 1];
      assert Keys(items) == Keys(init) + [items[|items| - 1].key];
      CountKeyAbsent(init, k);
    }
  }

  // ---------------------------------------------------------------------
  // Totals and keys of the grouping

  function KeysOfGroups<K>(gs: seq<Group<K>>): seq<K> {
    Map(gs, GroupKey)
  }

  /**
   * Counts summed over the groups are the number of items; penalties summed
   * over the groups are the sum of all amounts.
   */
  lemma {:induction false} GroupedTotals<K>(items: seq<Item<K>>)
    ensures Sum(Grouped(items), GroupCount) == |items|
    ensures Sum(Grouped(items), GroupPenalty) == Sum(items, ItemAmount)
  {
    if items != [] {
      var init, x := items[..|items| - 1], items[|items| - 1];
      GroupedTotals(init);
      var G := Grouped(init);
      var i := FindKey(G, x.key);
      if i < |G| {
        SumUpdate(G, i, Bump(G[i], x), GroupCount);
        SumUpdate(G, i, Bump(G[i], x), GroupPenalty);
      } else {
        assert (G + [NewGroup(x)])[..|G|] == G;
      }
    }
  }

  /** Each key appears in exactly one group, and the keys are those of the items. */
  lemma GroupedKeys<K>(items: seq<Item<K>>)
    ensures Distinct(KeysOfGroups(Grouped(items)))
    ensures forall k :: k in KeysOfGroups(Grouped(items)) <==> k in Keys(items)
  {
    GroupedIsPerKey(items);
    DedupProperties(Keys(items));
    var ks := KeysOfGroups(Grouped(items));
    assert ks == Dedup(Keys(items));
  }

  /** The grouping of nothing is empty. */
  lemma GroupedEmpty<K>()
    ensures Grouped<K>([]) == []
  {
  }

  // ---------------------------------------------------------------------
  // Sorting (JavaScript's `Array.prototype.sort`, which is stable)

  /** The two comparators the views pass to `sort`. */
  datatype Order =
    | ByPenalty           // (a, b) => b.penalty - a.penalty
    | ByCountThenPenalty  // count descending, ties by penalty descending

  /** The comparator does not put `a` after `b`: it returns 0 or less for (a, b). */
  predicate Before<K>(o: Order, a: Group<K>, b: Group<K>) {
    match o
    case ByPenalty => a.penalty >= b.penalty
    case ByCountThenPenalty => a.count > b.count || (a.count == b.count && a.penalty >= b.penalty)
  }

  predicate SortedBy<K>(o: Order, s: seq<Group<K>>) {
    forall i, j :: 0 <= i < j < |s| ==> Before(o, s[i], s[j])
  }

  /** Insert `x`, which came before every element of `ys`, ahead of the first one it may precede. */
  function Insert<K>(o: Order, x: Group<K>, ys: seq<Group<K>>): seq<Group<K>> {
    if ys == [] then [x]
    else if Before(o, x, ys[0]) then [x] + ys
    else [ys[0]] + Insert(o, x, ys[1..])
  }

  /** Stable sort: insertion from the right. */
  function SortDesc<K>(o: Order, s: seq<Group<K>>): seq<Group<K>> {
    if s == [] then [] else Insert(o, s[0], SortDesc(o, s[1..]))
  }

  lemma {:induction false} InsertPermutes<K>(o: Order, x: Group<K>, ys: seq<Group<K>>)
    ensures multiset(Insert(o, x, ys)) == multiset(ys) + multiset{x}
  {
    if ys != [] && !Before(o, x, ys[0]) {
      InsertPermutes(o, x, ys[1..]);
      assert ys == [ys[0]] + ys[1..];
    }
  }

  lemma {:induction false} InsertSums<K>(o: Order, x: Group<K>, ys: seq<Group<K>>)
    ensures Sum(Insert(o, x, ys), GroupCount) == Sum(ys, GroupCount) + x.count
    ensures Sum(Insert(o, x, ys), GroupPenalty) == Sum(ys, GroupPenalty) + x.penalty
  {
    var r := Insert(o, x, ys);
    assert [x][..0] == [];
    if ys == [] {
    } else if Before(o, x, ys[0]) {
      SumConcat([x], ys, GroupCount);
      SumConcat([x], ys, GroupPenalty);
    } else {
      var rest := Insert(o, x, ys[1..]);
      InsertSums(o, x, ys[1..]);
      assert ys == [ys[0]] + ys[1..];
      assert [ys[0]][..0] == [];
      SumConcat([ys[0]], rest, GroupCount);
      SumConcat([ys[0]], rest, GroupPenalty);
      SumConcat([ys[0]], ys[1..], GroupCount);
      SumConcat([ys[0]], ys[1..], GroupPenalty);
    }
  }

  /** A sorted list stays sorted with a head that precedes all of it. */
  lemma ConsSorted<K>(o: Order, h: Group<K>, rest: seq<Group<K>>)
    requires SortedBy(o, rest)
    requires forall z :: z in rest ==> Before(o, h, z)
    ensures SortedBy(o, [h] + rest)
  {
    var r := [h] + rest;
    forall i, j | 0 <= i < j < |r| ensures Before(o, r[i], r[j]) {
      assert r[j] == rest[j - 1];
      if i == 0 {
        assert rest[j - 1] in rest;
      } else {
        assert r[i] == rest[i - 1];
      }
    }
  }

  lemma SortedTail<K>(o: Order, ys: seq<Group<K>>)
    requires SortedBy(o, ys) && ys != []
    ensures SortedBy(o, ys[1..])
    ensures forall z :: z in ys[1..] ==> Before(o, ys[0], z)
  {
    forall i, j | 0 <= i < j < |ys[1..]| ensures Before(o, ys[1..][i], ys[1..][j]) {
      assert ys[1..][i] == ys[i + 1] && ys[1..][j] == ys[j + 1];
    }
    forall z | z in ys[1..] ensures Before(o, ys[0], z) {
      var k :| 0 <= k < |ys[1..]| && ys[1..][k] == z;
      assert ys[k + 1] == z;
    }
  }

  /** What precedes `x` and all of `ys` precedes everything in `Insert(o, x, ys)`. */
  lemma BeforeAllInserted<K>(o: Order, h: Group<K>, x: Group<K>, ys: seq<Group<K>>)
    requires Before(o, h, x)
    requires forall z :: z in ys ==> Before(o, h, z)
    ensures forall z :: z in Insert(o, x, ys) ==> Before(o, h, z)
  {
    InsertPermutes(o, x, ys);
    forall z | z in Insert(o, x, ys) ensures Before(o, h, z) {
      assert z in multiset(Insert(o, x, ys));
      if z != x {
        assert z in multiset(ys);
      }
    }
  }

  lemma {:induction false} InsertSorted<K>(o: Order, x: Group<K>, ys: seq<Group<K>>)
    requires SortedBy(o, ys)
    ensures SortedBy(o, Insert(o, x, ys))
  {
    if ys == [] {
    } else if Before(o, x, ys[0]) {
      SortedTail(o, ys);
      forall z | z in ys ensures Before(o, x, z) {
        if z != ys[0] {
          assert ys == [ys[0]] + ys[1..];
          assert z in ys[1..];
        }
      }
      ConsSorted(o, x, ys);
    } else {
      SortedTail(o, ys);
      InsertSorted(o, x, ys[1..]);
      BeforeAllInserted(o, ys[0], x, ys[1..]);
      ConsSorted(o, ys[0], Insert(o, x, ys[1..]));
    }
  }

  /** `a` and `b` compare equal under the comparator: it returns 0 for them. */
  predicate SameRank<K>(o: Order, a: Group<K>, b: Group<K>) {
    match o
    case ByPenalty => a.penalty == b.penalty
    case ByCountThenPenalty => a.count == b.count && a.penalty == b.penalty
  }

  /** The groups of `t`'s rank. */
  function RankOf<K>(o: Order, t: Group<K>): Group<K> -> bool {
    g => SameRank(o, g, t)
  }

  /** A group `x` does not precede is not of `x`'s rank. */
  lemma NotPassedOverOwnRank<K>(o: Order, x: Group<K>, h: Group<K>, t: Group<K>)
    requires SameRank(o, x, t) && !Before(o, x, h)
    ensures !SameRank(o, h, t)
  {
  }

  /** Inserting `x` passes over no group of its own rank. */
  lemma {:induction false} InsertKeepsRankOrder<K>(o: Order, x: Group<K>, ys: seq<Group<K>>, t: Group<K>)
    ensures Filter(Insert(o, x, ys), RankOf(o, t)) ==
            (if SameRank(o, x, t) then [x] else []) + Filter(ys, RankOf(o, t))
  {
    var p := RankOf(o, t);
    if ys == [] {
      assert Insert(o, x, ys) == [x] + ys;
      FilterCons(x, ys, p);
    } else if Before(o, x, ys[0]) {
      FilterCons(x, ys, p);
    } else {
      var h, rest := ys[0], ys[1..];
      var inserted := Insert(o, x, rest);
      InsertKeepsRankOrder(o, x, rest, t);
      assert Insert(o, x, ys) == [h] + inserted;
      FilterCons(h, inserted, p);
      assert ys == [h] + rest;
      FilterCons(h, rest, p);
      var fr := Filter(rest, p);
      if SameRank(o, x, t) {
        NotPassedOverOwnRank(o, x, h, t);
        assert Filter(inserted, p) == [x] + fr;
        assert Filter(Insert(o, x, ys), p) == [x] + fr;
        assert Filter(ys, p) == fr;
      } else if SameRank(o, h, t) {
        assert Filter(inserted, p) == fr;
        assert Filter(Insert(o, x, ys), p) == [h] + fr;
        assert Filter(ys, p) == [h] + fr;
      } else {
        assert Filter(inserted, p) == fr;
        assert Filter(Insert(o, x, ys), p) == fr;
        assert Filter(ys, p) == fr;
      }
    }
  }

  /**
   * The sort is stable: the groups of any one rank come out in the order
   * they went in.
   */
  lemma {:induction false} SortDescStable<K>(o: Order, s: seq<Group<K>>, t: Group<K>)
    ensures Filter(SortDesc(o, s), RankOf(o, t)) == Filter(s, RankOf(o, t))
  {
    if s != [] {
      SortDescStable(o, s[1..], t);
      InsertKeepsRankOrder(o, s[0], SortDesc(o, s[1..]), t);
      assert s == [s[0]] + s[1..];
      FilterCons(s[0], s[1..], RankOf(o, t));
    }
  }

  lemma DistinctCons<T>(h: T, s: seq<T>)
    ensures Distinct([h] + s) <==> h !in s && Distinct(s)
  {
    var r := [h] + s;
    if h !in s && Distinct(s) {
      forall i, j | 0 <= i < j < |r| ensures r[i] != r[j] {
        assert r[j] == s[j - 1];
        if i == 0 {
          assert s[j - 1] in s;
        } else {
          assert r[i] == s[i - 1];
        }
      }
    }
    if Distinct(r) {
      forall i, j | 0 <= i < j < |s| ensures s[i] != s[j] {
        assert r[i + 1] == s[i] && r[j + 1] == s[j];
      }
      forall k | 0 <= k < |s| ensures s[k] != h {
        assert r[0] == h && r[k + 1] == s[k];
      }
    }
  }

  lemma {:induction false} InsertKeys<K>(o: Order, x: Group<K>, ys: seq<Group<K>>)
    ensures forall k :: k in KeysOfGroups(Insert(o, x, ys)) <==> k == x.key || k in KeysOfGroups(ys)
    ensures Distinct(KeysOfGroups(ys)) && x.key !in KeysOfGroups(ys) ==> Distinct(KeysOfGroups(Insert(o, x, ys)))
  {
    if ys == [] {
    } else if Before(o, x, ys[0]) {
      assert KeysOfGroups(Insert(o, x, ys)) == [x.key] + KeysOfGroups(ys);
      DistinctCons(x.key, KeysOfGroups(ys));
    } else {
      var rest := Insert(o, x, ys[1..]);
      InsertKeys(o, x, ys[1..]);
      var kr, kt := KeysOfGroups(rest), KeysOfGroups(ys[1..]);
      assert KeysOfGroups(Insert(o, x, ys)) == [ys[0].key] + kr;
      assert KeysOfGroups(ys) == [ys[0].key] + kt;
      DistinctCons(ys[0].key, kt);
      DistinctCons(ys[0].key, kr);
    }
  }

  lemma {:induction false} SortDescPermutes<K>(o: Order, s: seq<Group<K>>)
    ensures multiset(SortDesc(o, s)) == multiset(s)
  {
    if s != [] {
      SortDescPermutes(o, s[1..]);
      InsertPermutes(o, s[0], SortDesc(o, s[1..]));
      assert s == [s[0]] + s[1..];
    }
  }

  lemma {:induction false} SortDescSorted<K>(o: Order, s: seq<Group<K>>)
    ensures SortedBy(o, SortDesc(o, s))
  {
    if s != [] {
      SortDescSorted(o, s[1..]);
      InsertSorted(o, s[0], SortDesc(o, s[1..]));
    }
  }

  lemma {:induction false} SortDescSums<K>(o: Order, s: seq<Group<K>>)
    ensures Sum(SortDesc(o, s), GroupCount) == Sum(s, GroupCount)
    ensures Sum(SortDesc(o, s), GroupPenalty) == Sum(s, GroupPenalty)
  {
    if s != [] {
      SortDescSums(o, s[1..]);
      InsertSums(o, s[0], SortDesc(o, s[1..]));
      assert s == [s[0]] + s[1..];
      assert [s[0]][..0] == [];
      SumConcat([s[0]], s[1..], GroupCount);
      SumConcat([s[0]], s[1..], GroupPenalty);
    }
  }

  /** The sorted list is a sorted permutation of its input with the same totals. */
  lemma SortDescProperties<K>(o: Order, s: seq<Group<K>>)
    ensures multiset(SortDesc(o, s)) == multiset(s)
    ensures SortedBy(o, SortDesc(o, s))
    ensures Sum(SortDesc(o, s), GroupCount) == Sum(s, GroupCount)
    ensures Sum(SortDesc(o, s), GroupPenalty) == Sum(s, GroupPenalty)
  {
    SortDescPermutes(o, s);
    SortDescSorted(o, s);
    SortDescSums(o, s);
  }

  /** Sorting keeps the set of keys, and keeps them distinct when they were. */
  lemma {:induction false} SortDescKeepsKeys<K>(o: Order, s: seq<Group<K>>)
    ensures forall k :: k in KeysOfGroups(SortDesc(o, s)) <==> k in KeysOfGroups(s)
    ensures Distinct(KeysOfGroups(s)) ==> Distinct(KeysOfGroups(SortDesc(o, s)))
  {
    if s != [] {
      var t := SortDesc(o, s[1..]);
      SortDescKeepsKeys(o, s[1..]);
      InsertKeys(o, s[0], t);
      var ks, kt := KeysOfGroups(s), KeysOfGroups(s[1..]);
      assert ks == [s[0].key] + kt;
      DistinctCons(s[0].key, kt);
      forall k ensures k in KeysOfGroups(SortDesc(o, s)) <==> k in ks {
        assert k in KeysOfGroups(SortDesc(o, s)) <==> k == s[0].key || k in KeysOfGroups(t);
        assert k in KeysOfGroups(t) <==> k in kt;
      }
    }
  }

  // ---------------------------------------------------------------------
  // The dictionary the views update in place

  /** The groups in key insertion order: `Object.values` / `Map.values()`. */
  function ValuesOf<K>(order: seq<K>, m: map<K, Group<K>>): (r: seq<Group<K>>)
    requires forall k :: k in order ==> k in m
    ensures |r| == |order|
    ensures forall i :: 0 <= i < |order| ==> r[i] == m[order[i]]
  {
    if order == [] then [] else ValuesOf(order[..|order| - 1], m) + [m[order[|order| - 1]]]
  }

  lemma {:induction false} ValuesOfUpdate<K>(order: seq<K>, m: map<K, Group<K>>, p: nat, g: Group<K>)
    requires forall k :: k in order ==> k in m
    requires Distinct(order) && p < |order|
    ensures ValuesOf(order, m[order[p] := g]) == ValuesOf(order, m)[p := g]
  {
    var m' := m[order[p] := g];
    var a, b := ValuesOf(order, m'), ValuesOf(order, m)[p := g];
    forall i | 0 <= i < |order| ensures a[i] == b[i] {
      if i != p { assert order[i] != order[p]; }
    }
  }

  /** Where `FindKey` lands in the values of a dictionary whose entries carry their own keys. */
  lemma FindKeyInValues<K>(order: seq<K>, m: map<K, Group<K>>, k: K)
    requires forall k :: k in order ==> k in m && m[k].key == k
    requires Distinct(order)
    ensures k !in order ==> FindKey(ValuesOf(order, m), k) == |order|
    ensures forall p :: 0 <= p < |order| && order[p] == k ==> FindKey(ValuesOf(order, m), k) == p
  {
    var vs := ValuesOf(order, m);
    var i := FindKey(vs, k);
    if i < |order| {
      assert vs[i].key == order[i];
    }
  }

  lemma DistinctAppend<T>(s: seq<T>, x: T)
    requires Distinct(s) && x !in s
    ensures Distinct(s + [x])
  {
  }

  lemma ValuesOfAppend<K>(order: seq<K>, m: map<K, Group<K>>, k: K, g: Group<K>)
    requires forall k :: k in order ==> k in m
    requires k !in order
    ensures ValuesOf(order + [k], m[k := g]) == ValuesOf(order, m) + [g]
  {
    var a, b := ValuesOf(order + [k], m[k := g]), ValuesOf(order, m) + [g];
    forall i | 0 <= i < |order| + 1 ensures a[i] == b[i] {
      if i < |order| { assert order[i] != k; }
    }
  }

  /** Adding an item whose key is at position `p`: its group is bumped in place. */
  lemma AddSeen<K>(order: seq<K>, m: map<K, Group<K>>, it: Item<K>, p: nat)
    requires forall k :: k in m <==> k in order
    requires forall k :: k in m ==> m[k].key == k
    requires Distinct(order) && p < |order| && order[p] == it.key
    ensures var m' := m[it.key := Bump(m[it.key], it)];
            && (forall k :: k in m' <==> k in order)
            && (forall k :: k in m' ==> m'[k].key == k)
            && AddItem(ValuesOf(order, m), it) == ValuesOf(order, m')
  {
    FindKeyInValues(order, m, it.key);
    ValuesOfUpdate(order, m, p, Bump(m[it.key], it));
  }

  /** Adding an item with a new key: a group for it is appended. */
  lemma AddNew<K>(order: seq<K>, m: map<K, Group<K>>, it: Item<K>)
    requires forall k :: k in m <==> k in order
    requires forall k :: k in m ==> m[k].key == k
    requires Distinct(order) && it.key !in order
    ensures var m', order' := m[it.key := NewGroup(it)], order + [it.key];
            && (forall k :: k in m' <==> k in order')
            && (forall k :: k in m' ==> m'[k].key == k)
            && Distinct(order')
            && AddItem(ValuesOf(order, m), it) == ValuesOf(order', m')
  {
    FindKeyInValues(order, m, it.key);
    ValuesOfAppend(order, m, it.key, NewGroup(it));
    DistinctAppend(order, it.key);
  }

  /**
   * A JavaScript object or `Map` from key to group.  `order` remembers the
   * keys in the order they were first set.
   */
  class Tally<K(==,!new)> {
    var order: seq<K>
    var entries: map<K, Group<K>>

    ghost predicate Valid()
      reads this
    {
      && (forall k :: k in entries <==> k in order)
      && Distinct(order)
      && (forall k :: k in entries ==> entries[k].key == k)
    }

    function Values(): seq<Group<K>>
      reads this
      requires Valid()
    {
      ValuesOf(order, entries)
    }

    constructor ()
      ensures Valid() && Values() == []
    {
      order := [];
      entries := map[];
    }

    /**
     * Record one item: create its entry the first time its key is seen, then
     * count it and add its amount.
     */
    method Add(it: Item<K>)
      requires Valid()
      modifies this
      ensures Valid()
      ensures Values() == AddItem(old(Values()), it)
    {
      var k := it.key;
      if k in entries {
        assert k in order;
        ghost var p :| 0 <= p < |order| && order[p] == k;
        AddSeen(order, entries, it, p);
        entries := entries[k := Bump(entries[k], it)];
      } else {
        AddNew(order, entries, it);
        entries := entries[k := NewGroup(it)];
        order := order + [k];
      }
    }
  }
}
