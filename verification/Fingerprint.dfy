/** The keyed diff of two fingerprint source lists (apps/cli/src/lib/fingerprint.ts). */
module Fingerprint {
  import opened Wrappers
  import opened StableSort

  datatype Source = Source(
    kind: string,
    filePath: Option<string>,
    id: Option<string>,
    overrideHashKey: Option<string>,
    reasons: seq<string>,
    hash: Option<string>)

  datatype Op = Added | Removed | Modified

  /** An absent hash field is not the same as a `null` hash. */
  datatype Item = Item(
    op: Op,
    sourceId: string,
    kind: string,
    reasons: seq<string>,
    hashBefore: Option<Option<string>>,
    hashAfter: Option<Option<string>>)

  function Or(a: Option<string>, b: string): string {
    if a.Some? then a.value else b
  }

  function SourceId(s: Source): string {
    if s.kind == "contents" then Or(s.id, s.kind)
    else Or(s.overrideHashKey, Or(s.filePath, Or(s.id, s.kind)))
  }

  /** Files and directories share a key space. */
  function Key(kind: string, sourceId: string): string {
    (if kind == "dir" then "file" else kind) + ":" + sourceId
  }

  function SourceKey(s: Source): string {
    Key(s.kind, SourceId(s))
  }

  function ItemKey(i: Item): string {
    Key(i.kind, i.sourceId)
  }

  // ---------------------------------------------------------------- a JavaScript Map of sources

  predicate DistinctKeys(list: seq<Source>) {
    forall i, j | 0 <= i < j < |list| :: SourceKey(list[i]) != SourceKey(list[j])
  }

  function Find(list: seq<Source>, key: string): (i: int)
    ensures -1 <= i < |list|
    ensures i >= 0 ==> SourceKey(list[i]) == key
    ensures i < 0 ==> forall j | 0 <= j < |list| :: SourceKey(list[j]) != key
  {
    if list == [] then -1
    else if SourceKey(list[|list| - 1]) == key then |list| - 1
    else Find(list[..|list| - 1], key)
  }

  /** `set`: a known key keeps its place and takes the new value. */
  function Put(list: seq<Source>, s: Source): seq<Source> {
    var i := Find(list, SourceKey(s));
    if i < 0 then list + [s] else list[i := s]
  }

  /** `new Map(sources.map(...))`, as its values in iteration order. */
  function Keyed(sources: seq<Source>): seq<Source> {
    if sources == [] then [] else Put(Keyed(sources[..|sources| - 1]), sources[|sources| - 1])
  }

  function Get(list: seq<Source>, key: string): Option<Source> {
    var i := Find(list, key);
    if i < 0 then None else Some(list[i])
  }

  /** The meaning of a list of sources: the last one with a key stands for it. */
  function At(sources: seq<Source>, key: string): Option<Source> {
    if sources == [] then None
    else if SourceKey(sources[|sources| - 1]) == key then Some(sources[|sources| - 1])
    else At(sources[..|sources| - 1], key)
  }

  lemma GetIs(list: seq<Source>, i: nat)
    requires DistinctKeys(list) && i < |list|
    ensures Get(list, SourceKey(list[i])) == Some(list[i])
  {
  }

  lemma PutDistinct(list: seq<Source>, s: Source)
    requires DistinctKeys(list)
    ensures DistinctKeys(Put(list, s))
  {
    hide SourceKey;
    var i := Find(list, SourceKey(s));
  }

  /** In a list with distinct keys whatever has the key is what the lookup gives. */
  lemma GetFinds(list: seq<Source>, key: string, i: nat)
    requires DistinctKeys(list) && i < |list| && SourceKey(list[i]) == key
    ensures Get(list, key) == Some(list[i])
  {
    hide SourceKey;
    var j := Find(list, key);
  }

  lemma PutKeeps(list: seq<Source>, s: Source, key: string)
    requires DistinctKeys(list)
    ensures DistinctKeys(Put(list, s))
    ensures Get(Put(list, s), key) == if SourceKey(s) == key then Some(s) else Get(list, key)
  {
    hide SourceKey;
    PutDistinct(list, s);
    var put, i := Put(list, s), Find(list, SourceKey(s));
    if SourceKey(s) == key {
      GetFinds(put, key, if i < 0 then |list| else i);
    } else if Find(list, key) >= 0 {
      var j := Find(list, key);
      assert put[j] == list[j];
      GetFinds(put, key, j);
    } else {
      forall k | 0 <= k < |put|
        ensures SourceKey(put[k]) != key
      {
        assert put[k] == s || (k < |list| && put[k] == list[k]);
      }
    }
  }

  /** The map has distinct keys and answers every lookup with the last source of that key. */
  lemma {:induction false} KeyedMeans(sources: seq<Source>, key: string)
    ensures DistinctKeys(Keyed(sources))
    ensures Get(Keyed(sources), key) == At(sources, key)
  {
    if sources != [] {
      KeyedMeans(sources[..|sources| - 1], key);
      PutKeeps(Keyed(sources[..|sources| - 1]), sources[|sources| - 1], key);
    }
  }

  // ---------------------------------------------------------------- what the diff means

  function RemovedItem(b: Source): Item {
    Item(Removed, SourceId(b), b.kind, b.reasons, Some(b.hash), None)
  }

  function ModifiedItem(b: Source, a: Source): Item {
    Item(Modified, SourceId(a), a.kind, a.reasons, Some(b.hash), Some(a.hash))
  }

  function AddedItem(a: Source): Item {
    Item(Added, SourceId(a), a.kind, a.reasons, None, Some(a.hash))
  }

  /** The change of one key between two lookups, if there is one. */
  function Change(b: Option<Source>, a: Option<Source>): Option<Item> {
    match (b, a)
    case (None, None) => None
    case (Some(x), None) => Some(RemovedItem(x))
    case (None, Some(y)) => Some(AddedItem(y))
    case (Some(x), Some(y)) => if x.hash == y.hash then None else Some(ModifiedItem(x, y))
  }

  function ChangeOf(before: seq<Source>, after: seq<Source>, key: string): Option<Item> {
    Change(At(before, key), At(after, key))
  }

  /** The items are the changes of all keys, each once. */
  ghost predicate IsDiff(items: seq<Item>, before: seq<Source>, after: seq<Source>) {
    && (forall i | 0 <= i < |items| :: ChangeOf(before, after, ItemKey(items[i])) == Some(items[i]))
    && (forall key :: ChangeOf(before, after, key).Some? ==> ChangeOf(before, after, key).value in items)
    && (forall i, j | 0 <= i < j < |items| :: ItemKey(items[i]) != ItemKey(items[j]))
  }

  // ---------------------------------------------------------------- the two loops

  function BeforeItem(b: Source, after: seq<Source>): seq<Item> {
    match Get(after, SourceKey(b))
    case None => [RemovedItem(b)]
    case Some(a) => if a.hash != b.hash then [ModifiedItem(b, a)] else []
  }

  function AfterItem(a: Source, before: seq<Source>): seq<Item> {
    if Get(before, SourceKey(a)).None? then [AddedItem(a)] else []
  }

  /** One pass: the items of each source, in order. */
  function Collect(list: seq<Source>, items: Source -> seq<Item>): seq<Item> {
    if list == [] then [] else Collect(list[..|list| - 1], items) + items(list[|list| - 1])
  }

  function FirstLoop(after: seq<Source>): Source -> seq<Item> {
    (b: Source) => BeforeItem(b, after)
  }

  function SecondLoop(before: seq<Source>): Source -> seq<Item> {
    (a: Source) => AfterItem(a, before)
  }

  function BeforeItems(before: seq<Source>, after: seq<Source>): seq<Item> {
    Collect(Keyed(before), FirstLoop(Keyed(after)))
  }

  function AfterItems(before: seq<Source>, after: seq<Source>): seq<Item> {
    Collect(Keyed(after), SecondLoop(Keyed(before)))
  }

  lemma {:induction false} Collected(list: seq<Source>, items: Source -> seq<Item>, item: Item)
    ensures item in Collect(list, items) <==> exists i :: 0 <= i < |list| && item in items(list[i])
  {
    if list != [] {
      var n := |list| - 1;
      Collected(list[..n], items, item);
      if i :| 0 <= i < |list| && item in items(list[i]) {
        assert i == n || list[..n][i] == list[i];
      }
    }
  }

  predicate DistinctItems(items: seq<Item>) {
    forall i, j | 0 <= i < j < |items| :: ItemKey(items[i]) != ItemKey(items[j])
  }

  /** Each source gives at most one item, under its own key. */
  ghost predicate OwnKey(list: seq<Source>, items: Source -> seq<Item>) {
    forall i | 0 <= i < |list| ::
      |items(list[i])| <= 1 && forall x | x in items(list[i]) :: ItemKey(x) == SourceKey(list[i])
  }

  lemma {:induction false} CollectedDistinct(list: seq<Source>, items: Source -> seq<Item>)
    requires DistinctKeys(list) && OwnKey(list, items)
    ensures DistinctItems(Collect(list, items))
  {
    if list != [] {
      var n := |list| - 1;
      CollectedDistinct(list[..n], items);
      forall x | x in Collect(list[..n], items)
        ensures forall y | y in items(list[n]) :: ItemKey(x) != ItemKey(y)
      {
        Collected(list[..n], items, x);
      }
      AppendDistinct(Collect(list[..n], items), items(list[n]));
    }
  }

  lemma AppendDistinct(a: seq<Item>, b: seq<Item>)
    requires DistinctItems(a) && DistinctItems(b)
    requires forall x, y | x in a && y in b :: ItemKey(x) != ItemKey(y)
    ensures DistinctItems(a + b)
  {
    forall i, j | 0 <= i < j < |a + b|
      ensures ItemKey((a + b)[i]) != ItemKey((a + b)[j])
    {
      if i < |a| && j >= |a| {
        assert (a + b)[i] in a && (a + b)[j] in b;
      }
    }
  }

  lemma {:induction false} AtHasKey(sources: seq<Source>, key: string)
    ensures At(sources, key).Some? ==> SourceKey(At(sources, key).value) == key
  {
    if sources != [] {
      AtHasKey(sources[..|sources| - 1], key);
    }
  }

  lemma GetHasKey(list: seq<Source>, key: string)
    ensures Get(list, key).Some? ==> Get(list, key).value in list && SourceKey(Get(list, key).value) == key
    ensures Get(list, key).None? ==> forall s | s in list :: SourceKey(s) != key
  {
  }

  /** What the two passes say of one key. */
  lemma PassItems(before: seq<Source>, after: seq<Source>, item: Item)
    ensures item in BeforeItems(before, after)
       <==> ChangeOf(before, after, ItemKey(item)) == Some(item) && !item.op.Added?
    ensures item in AfterItems(before, after)
       <==> ChangeOf(before, after, ItemKey(item)) == Some(item) && item.op.Added?
  {
    var key := ItemKey(item);
    BeforePass(before, after, item);
    AfterPass(before, after, item);
    KeyedMeans(before, key);
    KeyedMeans(after, key);
  }

  lemma BeforePass(before: seq<Source>, after: seq<Source>, item: Item)
    ensures
      var key := ItemKey(item);
      (item in BeforeItems(before, after)) <==>
        Get(Keyed(before), key).Some? && item in BeforeItem(Get(Keyed(before), key).value, Keyed(after))
  {
    var key := ItemKey(item);
    var list, items := Keyed(before), FirstLoop(Keyed(after));
    KeyedMeans(before, key);
    Collected(list, items, item);
    GetHasKey(list, key);
    if i :| 0 <= i < |list| && item in items(list[i]) {
      BeforeItemKey(list[i], Keyed(after), item);
      GetIs(list, i);
    }
    if Get(list, key).Some? && item in BeforeItem(Get(list, key).value, Keyed(after)) {
      var i :| 0 <= i < |list| && list[i] == Get(list, key).value;
      assert item in items(list[i]);
    }
  }

  lemma AfterPass(before: seq<Source>, after: seq<Source>, item: Item)
    ensures
      var key := ItemKey(item);
      (item in AfterItems(before, after)) <==>
        Get(Keyed(after), key).Some? && item in AfterItem(Get(Keyed(after), key).value, Keyed(before))
  {
    var key := ItemKey(item);
    var list, items := Keyed(after), SecondLoop(Keyed(before));
    KeyedMeans(after, key);
    Collected(list, items, item);
    GetHasKey(list, key);
    if i :| 0 <= i < |list| && item in items(list[i]) {
      GetIs(list, i);
    }
    if Get(list, key).Some? && item in AfterItem(Get(list, key).value, Keyed(before)) {
      var i :| 0 <= i < |list| && list[i] == Get(list, key).value;
      assert item in items(list[i]);
    }
  }

  lemma BeforeItemKey(b: Source, after: seq<Source>, item: Item)
    requires item in BeforeItem(b, after)
    ensures ItemKey(item) == SourceKey(b)
  {
    GetHasKey(after, SourceKey(b));
  }

  lemma ChangeKey(before: seq<Source>, after: seq<Source>, key: string)
    ensures ChangeOf(before, after, key).Some? ==> ItemKey(ChangeOf(before, after, key).value) == key
  {
    AtHasKey(before, key);
    AtHasKey(after, key);
  }

  lemma LoopsOwnKeys(list: seq<Source>, other: seq<Source>)
    ensures OwnKey(list, FirstLoop(other)) && OwnKey(list, SecondLoop(other))
  {
    forall i, x | 0 <= i < |list| && x in BeforeItem(list[i], other)
      ensures ItemKey(x) == SourceKey(list[i])
    {
      BeforeItemKey(list[i], other, x);
    }
  }

  lemma PassesDistinct(before: seq<Source>, after: seq<Source>)
    ensures DistinctItems(BeforeItems(before, after)) && DistinctItems(AfterItems(before, after))
  {
    KeyedMeans(before, "");
    KeyedMeans(after, "");
    LoopsOwnKeys(Keyed(before), Keyed(after));
    LoopsOwnKeys(Keyed(after), Keyed(before));
    CollectedDistinct(Keyed(before), FirstLoop(Keyed(after)));
    CollectedDistinct(Keyed(after), SecondLoop(Keyed(before)));
  }

  /** What the loops push is the diff: the changes of all keys, each once. */
  lemma UnsortedIsDiff(before: seq<Source>, after: seq<Source>)
    ensures IsDiff(BeforeItems(before, after) + AfterItems(before, after), before, after)
  {
    var left, right := BeforeItems(before, after), AfterItems(before, after);
    forall item
      ensures item in left + right <==> ChangeOf(before, after, ItemKey(item)) == Some(item)
    {
      PassItems(before, after, item);
    }
    forall key | ChangeOf(before, after, key).Some?
      ensures ChangeOf(before, after, key).value in left + right
    {
      ChangeKey(before, after, key);
    }
    PassesDistinct(before, after);
    forall x, y | x in left && y in right
      ensures ItemKey(x) != ItemKey(y)
    {
      PassItems(before, after, x);
      PassItems(before, after, y);
    }
    AppendDistinct(left, right);
  }

  // ---------------------------------------------------------------- the diff

  /** `localeCompare` of the ids is at most zero; which strings it ties is up to the locale. */
  function ById(leq: (string, string) -> bool): (Item, Item) -> bool {
    (x: Item, y: Item) => leq(x.sourceId, y.sourceId)
  }

  function Unsorted(before: seq<Source>, after: seq<Source>): seq<Item> {
    BeforeItems(before, after) + AfterItems(before, after)
  }

  function Diff(before: seq<Source>, after: seq<Source>, leq: (string, string) -> bool): seq<Item> {
    Sort(Unsorted(before, after), ById(leq))
  }

  /** The two loops, over the maps' values in insertion order. */
  method PushItems(beforeByKey: seq<Source>, afterByKey: seq<Source>) returns (items: seq<Item>)
    ensures items == Collect(beforeByKey, FirstLoop(afterByKey)) + Collect(afterByKey, SecondLoop(beforeByKey))
  {
    items := [];
    for i := 0 to |beforeByKey|
      invariant items == Collect(beforeByKey[..i], FirstLoop(afterByKey))
    {
      var b := beforeByKey[i];
      var a := Get(afterByKey, SourceKey(b));
      CollectNext([], beforeByKey, i, FirstLoop(afterByKey));
      if a.None? {
        items := items + [RemovedItem(b)];
      } else if a.value.hash != b.hash {
        items := items + [ModifiedItem(b, a.value)];
      }
    }
    assert beforeByKey[..|beforeByKey|] == beforeByKey;
    ghost var first := items;
    for i := 0 to |afterByKey|
      invariant items == first + Collect(afterByKey[..i], SecondLoop(beforeByKey))
    {
      var a := afterByKey[i];
      CollectNext(first, afterByKey, i, SecondLoop(beforeByKey));
      if Get(beforeByKey, SourceKey(a)).None? {
        items := items + [AddedItem(a)];
      }
    }
    assert afterByKey[..|afterByKey|] == afterByKey;
  }

  /** First what the old list has, then what only the new one has, sorted by source id. */
  method DiffFingerprintSources(before: seq<Source>, after: seq<Source>, leq: (string, string) -> bool)
    returns (sorted: seq<Item>)
    requires TotalPreorder(leq)
    ensures sorted == Diff(before, after, leq)
    ensures IsDiff(sorted, before, after)
    ensures SortedBy(sorted, ById(leq))
  {
    var items := PushItems(Keyed(before), Keyed(after));
    sorted := Sort(items, ById(leq));
    DiffIsDiff(before, after, leq);
    DiffIsRanked(before, after, leq);
  }

  lemma CollectNext(done: seq<Item>, list: seq<Source>, i: nat, items: Source -> seq<Item>)
    requires i < |list|
    ensures Collect(list[..i + 1], items) == Collect(list[..i], items) + items(list[i])
    ensures done + Collect(list[..i + 1], items) == done + Collect(list[..i], items) + items(list[i])
  {
    assert list[..i + 1][..i] == list[..i];
  }

  lemma PermutedIsDiff(items: seq<Item>, others: seq<Item>, before: seq<Source>, after: seq<Source>)
    requires IsDiff(items, before, after) && multiset(items) == multiset(others)
    ensures IsDiff(others, before, after)
  {
    forall i | 0 <= i < |others|
      ensures ChangeOf(before, after, ItemKey(others[i])) == Some(others[i])
    {
      assert others[i] in multiset(items);
    }
    forall key | ChangeOf(before, after, key).Some?
      ensures ChangeOf(before, after, key).value in others
    {
      assert ChangeOf(before, after, key).value in multiset(items);
    }
    OnceEach(items);
    SameMultiplicity(others, items);
  }

  /** Items with distinct keys occur once each, and an item that occurs once per key has distinct keys. */
  lemma {:induction false} OnceEach(items: seq<Item>)
    requires DistinctItems(items)
    ensures forall x :: multiset(items)[x] == if x in items then 1 else 0
  {
    if items != [] {
      var n := |items| - 1;
      SplitLast(items);
      OnceEach(items[..n]);
      assert items[n] !in items[..n];
    }
  }

  lemma SameMultiplicity(items: seq<Item>, others: seq<Item>)
    requires multiset(items) == multiset(others) && DistinctItems(others)
    ensures DistinctItems(items)
  {
    OnceEach(others);
    forall i, j | 0 <= i < j < |items|
      ensures ItemKey(items[i]) != ItemKey(items[j])
    {
      TwoOccurrences(items, i, j);
      assert items[i] in multiset(others) && items[j] in multiset(others);
      assert items[i] != items[j];
    }
  }

  lemma TwoOccurrences(items: seq<Item>, i: nat, j: nat)
    requires i < j < |items|
    ensures items[i] == items[j] ==> multiset(items)[items[i]] >= 2
  {
    var left, right := items[..j], items[j..];
    assert items == left + right;
    assert items[i] == left[i] && items[j] == right[0];
    assert left[i] in multiset(left) && right[0] in multiset(right);
  }

  lemma DiffIsDiff(before: seq<Source>, after: seq<Source>, leq: (string, string) -> bool)
    ensures IsDiff(Diff(before, after, leq), before, after)
  {
    UnsortedIsDiff(before, after);
    SortPermutes(Unsorted(before, after), ById(leq));
    PermutedIsDiff(Unsorted(before, after), Diff(before, after, leq), before, after);
  }

  /** The loop an item comes from. */
  function Pass(): Item -> nat {
    (x: Item) => if x.op.Added? then 1 else 0
  }

  lemma DiffIsRanked(before: seq<Source>, after: seq<Source>, leq: (string, string) -> bool)
    requires TotalPreorder(leq)
    ensures SortedBy(Diff(before, after, leq), Ranked(ById(leq), Pass()))
    ensures SortedBy(Diff(before, after, leq), ById(leq))
  {
    var left, right := BeforeItems(before, after), AfterItems(before, after);
    forall i | 0 <= i < |left + right|
      ensures Pass()((left + right)[i]) == if i < |left| then 0 else 1
    {
      PassItems(before, after, (left + right)[i]);
    }
    SortSorted(left + right, ById(leq), Pass());
  }
}
