/** What the fingerprint diff promises: reconstruction, symmetry, and exactly when input order matters. */
module FingerprintTheorems {
  import opened Wrappers
  import opened StableSort
  import opened Fingerprint

  // ---------------------------------------------------------------- reconstruction

  type Hashes = map<string, Option<string>>

  function Lookup(m: Hashes, key: string): Option<Option<string>> {
    if key in m then Some(m[key]) else None
  }

  /** The hash of every key, later sources overriding earlier ones. */
  function HashesOf(sources: seq<Source>): Hashes {
    if sources == [] then map[]
    else HashesOf(sources[..|sources| - 1])[SourceKey(sources[|sources| - 1]) := sources[|sources| - 1].hash]
  }

  function HashIn(source: Option<Source>): Option<Option<string>> {
    match source
    case None => None
    case Some(s) => Some(s.hash)
  }

  lemma {:induction false} HashesMean(sources: seq<Source>, key: string)
    ensures Lookup(HashesOf(sources), key) == HashIn(At(sources, key))
  {
    if sources != [] {
      HashesMean(sources[..|sources| - 1], key);
    }
  }

  function Applied(m: Hashes, item: Item): Hashes {
    if item.hashAfter.None? then m - {ItemKey(item)} else m[ItemKey(item) := item.hashAfter.value]
  }

  /** A diff applied item by item. */
  function Apply(items: seq<Item>, m: Hashes): Hashes {
    if items == [] then m else Applied(Apply(items[..|items| - 1], m), items[|items| - 1])
  }

  lemma {:induction false} ApplyAt(items: seq<Item>, m: Hashes, key: string)
    requires DistinctItems(items)
    ensures (forall i | 0 <= i < |items| :: ItemKey(items[i]) != key) ==> Lookup(Apply(items, m), key) == Lookup(m, key)
    ensures forall i | 0 <= i < |items| && ItemKey(items[i]) == key ::
              Lookup(Apply(items, m), key) == items[i].hashAfter
  {
    hide ItemKey, Lookup, Applied;
    if items != [] {
      var n := |items| - 1;
      ApplyAt(items[..n], m, key);
      AppliedAt(Apply(items[..n], m), items[n], key);
      forall i | 0 <= i < n
        ensures items[..n][i] == items[i]
      {
      }
    }
  }

  lemma AppliedAt(m: Hashes, item: Item, key: string)
    ensures Lookup(Applied(m, item), key) == if ItemKey(item) == key then item.hashAfter else Lookup(m, key)
  {
    hide ItemKey;
  }

  /**
   * Applying the diff, in whatever order its items come, to the hashes of the old
   * list gives the hashes of the new one; and a key has an item if and only if its
   * hash, or its presence, changed.
   */
  lemma Reconstructs(items: seq<Item>, before: seq<Source>, after: seq<Source>)
    requires IsDiff(items, before, after)
    ensures Apply(items, HashesOf(before)) == HashesOf(after)
    ensures forall key ::
              (exists i :: 0 <= i < |items| && ItemKey(items[i]) == key)
                <==> Lookup(HashesOf(before), key) != Lookup(HashesOf(after), key)
  {
    forall key
      ensures Lookup(Apply(items, HashesOf(before)), key) == Lookup(HashesOf(after), key)
      ensures (exists i :: 0 <= i < |items| && ItemKey(items[i]) == key)
                <==> Lookup(HashesOf(before), key) != Lookup(HashesOf(after), key)
    {
      ReconstructsKey(items, before, after, key);
    }
    SameLookups(Apply(items, HashesOf(before)), HashesOf(after));
  }

  lemma SameLookups(m: Hashes, n: Hashes)
    requires forall key :: Lookup(m, key) == Lookup(n, key)
    ensures m == n
  {
    forall key
      ensures key in m <==> key in n
      ensures key in m && key in n ==> m[key] == n[key]
    {
      assert Lookup(m, key) == Lookup(n, key);
    }
  }

  lemma ReconstructsKey(items: seq<Item>, before: seq<Source>, after: seq<Source>, key: string)
    requires IsDiff(items, before, after)
    ensures Lookup(Apply(items, HashesOf(before)), key) == Lookup(HashesOf(after), key)
    ensures (exists i :: 0 <= i < |items| && ItemKey(items[i]) == key)
              <==> Lookup(HashesOf(before), key) != Lookup(HashesOf(after), key)
  {
    HashesMean(before, key);
    HashesMean(after, key);
    ChangeKey(before, after, key);
    ApplyAt(items, HashesOf(before), key);
    if ChangeOf(before, after, key).Some? {
      var i :| 0 <= i < |items| && items[i] == ChangeOf(before, after, key).value;
      assert ItemKey(items[i]) == key;
    }
  }

  // ---------------------------------------------------------------- symmetry

  function Opposite(op: Op): Op {
    match op case Added => Removed case Removed => Added case Modified => Modified
  }

  /** The same change seen from the other side. */
  ghost predicate Mirrors(x: Item, y: Item) {
    && y.op == Opposite(x.op)
    && ItemKey(y) == ItemKey(x)
    && y.hashBefore == x.hashAfter && y.hashAfter == x.hashBefore
    && (!x.op.Modified? ==> y.sourceId == x.sourceId && y.kind == x.kind && y.reasons == x.reasons)
  }

  predicate PlainKinds(sources: seq<Source>) {
    forall s | s in sources :: ':' !in s.kind
  }

  lemma SamePrefix(a: string, x: string, b: string, y: string)
    requires a + ":" + x == b + ":" + y && |a| <= |b| && ':' !in b
    ensures a == b && x == y
  {
    var s := a + ":" + x;
    assert s[|a|] == ':' && s == b + ":" + y;
    assert (b + ":" + y)[|a|] == ':';
    assert s[..|a|] == a && s[..|b|] == b && s[|a| + 1..] == x && s[|b| + 1..] == y;
  }

  /** A key gives its id back when the kind has no colon. */
  lemma KeyGivesId(kind: string, id: string, kind': string, id': string)
    requires Key(kind, id) == Key(kind', id') && ':' !in kind && ':' !in kind'
    ensures id == id'
  {
    var a, b := if kind == "dir" then "file" else kind, if kind' == "dir" then "file" else kind';
    if |a| <= |b| {
      SamePrefix(a, id, b, id');
    } else {
      SamePrefix(b, id', a, id);
    }
  }

  lemma {:induction false} AtIsIn(sources: seq<Source>, key: string)
    ensures At(sources, key).Some? ==> At(sources, key).value in sources
  {
    if sources != [] {
      AtIsIn(sources[..|sources| - 1], key);
    }
  }

  /**
   * Swapping the arguments swaps added and removed and the two hashes, key by key;
   * with colon-free kinds the source id is the same on both sides too.
   */
  lemma SwapMirrors(before: seq<Source>, after: seq<Source>, key: string)
    ensures ChangeOf(after, before, key).Some? <==> ChangeOf(before, after, key).Some?
    ensures ChangeOf(before, after, key).Some? ==>
              Mirrors(ChangeOf(before, after, key).value, ChangeOf(after, before, key).value)
    ensures ChangeOf(before, after, key).Some? && PlainKinds(before) && PlainKinds(after) ==>
              ChangeOf(after, before, key).value.sourceId == ChangeOf(before, after, key).value.sourceId
  {
    ChangeKey(before, after, key);
    ChangeKey(after, before, key);
    AtIsIn(before, key);
    AtIsIn(after, key);
    if ChangeOf(before, after, key).Some? && PlainKinds(before) && PlainKinds(after) {
      var x, y := ChangeOf(before, after, key).value, ChangeOf(after, before, key).value;
      KeyGivesId(x.kind, x.sourceId, y.kind, y.sourceId);
    }
  }

  // ---------------------------------------------------------------- order independence

  /** The same sources in another order, no two with one key. */
  ghost predicate Reordered(a: seq<Source>, b: seq<Source>) {
    multiset(a) == multiset(b) && DistinctKeys(a) && DistinctKeys(b)
  }

  lemma {:induction false} AtDistinct(sources: seq<Source>, s: Source)
    requires DistinctKeys(sources) && s in sources
    ensures At(sources, SourceKey(s)) == Some(s)
  {
    var n := |sources| - 1;
    if sources[n] != s {
      var i :| 0 <= i < |sources| && sources[i] == s;
      assert sources[..n][i] == s;
      AtDistinct(sources[..n], s);
    }
  }

  lemma ReorderedAt(a: seq<Source>, b: seq<Source>, key: string)
    requires Reordered(a, b)
    ensures At(a, key) == At(b, key)
  {
    AtIsIn(a, key);
    AtIsIn(b, key);
    AtHasKey(a, key);
    AtHasKey(b, key);
    if At(a, key).Some? {
      assert At(a, key).value in multiset(b);
      AtDistinct(b, At(a, key).value);
    }
    if At(b, key).Some? {
      assert At(b, key).value in multiset(a);
      AtDistinct(a, At(b, key).value);
    }
  }

  lemma DiffsAreOnceEach(items: seq<Item>, before: seq<Source>, after: seq<Source>, x: Item)
    requires IsDiff(items, before, after)
    ensures multiset(items)[x] == if ChangeOf(before, after, ItemKey(x)) == Some(x) then 1 else 0
  {
    OnceEach(items);
    if x in items {
      var i :| 0 <= i < |items| && items[i] == x;
    }
  }

  /** The diff of reordered inputs has the same items. */
  lemma SameItems(
    before: seq<Source>, before': seq<Source>, after: seq<Source>, after': seq<Source>,
    items: seq<Item>, items': seq<Item>)
    requires Reordered(before, before') && Reordered(after, after')
    requires IsDiff(items, before, after) && IsDiff(items', before', after')
    ensures multiset(items) == multiset(items')
  {
    forall x
      ensures multiset(items)[x] == multiset(items')[x]
    {
      ReorderedAt(before, before', ItemKey(x));
      ReorderedAt(after, after', ItemKey(x));
      DiffsAreOnceEach(items, before, after, x);
      DiffsAreOnceEach(items', before', after', x);
    }
  }

  /** Two items of one loop whose ids the comparator ties. */
  ghost predicate TieInOnePass(items: seq<Item>, leq: (string, string) -> bool) {
    exists x, y :: x in items && y in items && x != y && x.op.Added? == y.op.Added?
                && leq(x.sourceId, y.sourceId) && leq(y.sourceId, x.sourceId)
  }

  /** Without such a tie the whole sequence is the same for every order of the inputs. */
  lemma OrderIndependent(
    before: seq<Source>, before': seq<Source>, after: seq<Source>, after': seq<Source>, leq: (string, string) -> bool)
    requires TotalPreorder(leq) && Reordered(before, before') && Reordered(after, after')
    requires !TieInOnePass(Diff(before, after, leq), leq)
    ensures Diff(before, after, leq) == Diff(before', after', leq)
  {
    var s, t := Diff(before, after, leq), Diff(before', after', leq);
    DiffIsDiff(before, after, leq);
    DiffIsDiff(before', after', leq);
    SameItems(before, before', after, after', s, t);
    DiffIsRanked(before, after, leq);
    DiffIsRanked(before', after', leq);
    OneSortedOrder(s, t, Ranked(ById(leq), Pass()));
  }

  // ---------------------------------------------------------------- and only then

  function Reverse<T>(s: seq<T>): (r: seq<T>)
    ensures |r| == |s| && forall i | 0 <= i < |s| :: r[i] == s[|s| - 1 - i]
  {
    seq(|s|, i requires 0 <= i < |s| => s[|s| - 1 - i])
  }

  lemma {:induction false} ReversePermutes<T>(s: seq<T>)
    ensures multiset(Reverse(s)) == multiset(s)
  {
    if s != [] {
      var n := |s| - 1;
      ReversePermutes(s[..n]);
      SplitLast(s);
      assert Reverse(s) == [s[n]] + Reverse(s[..n]);
    }
  }

  lemma ReverseConcat<T>(a: seq<T>, b: seq<T>)
    ensures Reverse(a + b) == Reverse(b) + Reverse(a)
  {
  }

  lemma {:induction false} CollectCons(s: Source, list: seq<Source>, items: Source -> seq<Item>)
    ensures Collect([s] + list, items) == items(s) + Collect(list, items)
  {
    if list == [] {
      assert [s] + list == [s] && [s][..0] == [];
    } else {
      var n := |list| - 1;
      assert ([s] + list)[..n + 1] == [s] + list[..n];
      CollectCons(s, list[..n], items);
    }
  }

  /** A loop over a reversed list pushes its items in reverse. */
  lemma {:induction false} CollectReversed(list: seq<Source>, items: Source -> seq<Item>)
    requires OwnKey(list, items)
    ensures Collect(Reverse(list), items) == Reverse(Collect(list, items))
  {
    if list != [] {
      var n := |list| - 1;
      CollectReversed(list[..n], items);
      assert Reverse(list) == [list[n]] + Reverse(list[..n]);
      CollectCons(list[n], Reverse(list[..n]), items);
      ReverseConcat(Collect(list[..n], items), items(list[n]));
      assert Reverse(items(list[n])) == items(list[n]);
    }
  }

  lemma PutNew(list: seq<Source>, s: Source)
    requires forall i | 0 <= i < |list| :: SourceKey(list[i]) != SourceKey(s)
    ensures Put(list, s) == list + [s]
  {
    hide SourceKey;
    var i := Find(list, SourceKey(s));
  }

  lemma {:induction false} KeyedDistinct(sources: seq<Source>)
    requires DistinctKeys(sources)
    ensures Keyed(sources) == sources
  {
    hide SourceKey, Put;
    if sources != [] {
      var n := |sources| - 1;
      KeyedDistinct(sources[..n]);
      PutNew(sources[..n], sources[n]);
      assert sources == sources[..n] + [sources[n]];
    }
  }

  lemma ReverseReordered(s: seq<Source>)
    requires DistinctKeys(s)
    ensures Reordered(s, Reverse(s))
  {
    ReversePermutes(s);
  }

  lemma SameLoops(s: seq<Source>, x: Source)
    requires DistinctKeys(s)
    ensures FirstLoop(Reverse(s))(x) == FirstLoop(s)(x) && SecondLoop(Reverse(s))(x) == SecondLoop(s)(x)
  {
    ReverseReordered(s);
    ReorderedAt(s, Reverse(s), SourceKey(x));
    KeyedMeans(s, SourceKey(x));
    KeyedMeans(Reverse(s), SourceKey(x));
    KeyedDistinct(s);
    KeyedDistinct(Reverse(s));
  }

  lemma {:induction false} CollectSame(list: seq<Source>, items: Source -> seq<Item>, others: Source -> seq<Item>)
    requires forall s :: items(s) == others(s)
    ensures Collect(list, items) == Collect(list, others)
  {
    if list != [] {
      CollectSame(list[..|list| - 1], items, others);
    }
  }

  lemma ReversedLoop(list: seq<Source>, other: seq<Source>)
    requires DistinctKeys(other)
    ensures Collect(Reverse(list), FirstLoop(Reverse(other))) == Reverse(Collect(list, FirstLoop(other)))
    ensures Collect(Reverse(list), SecondLoop(Reverse(other))) == Reverse(Collect(list, SecondLoop(other)))
  {
    forall s: Source
      ensures FirstLoop(Reverse(other))(s) == FirstLoop(other)(s)
      ensures SecondLoop(Reverse(other))(s) == SecondLoop(other)(s)
    {
      SameLoops(other, s);
    }
    CollectSame(Reverse(list), FirstLoop(Reverse(other)), FirstLoop(other));
    CollectSame(Reverse(list), SecondLoop(Reverse(other)), SecondLoop(other));
    LoopsOwnKeys(list, other);
    CollectReversed(list, FirstLoop(other));
    CollectReversed(list, SecondLoop(other));
  }

  lemma ReversedPasses(before: seq<Source>, after: seq<Source>)
    requires DistinctKeys(before) && DistinctKeys(after)
    ensures BeforeItems(Reverse(before), Reverse(after)) == Reverse(BeforeItems(before, after))
    ensures AfterItems(Reverse(before), Reverse(after)) == Reverse(AfterItems(before, after))
  {
    KeyedDistinct(before);
    KeyedDistinct(after);
    KeyedDistinct(Reverse(before));
    KeyedDistinct(Reverse(after));
    ReversedLoop(before, after);
    ReversedLoop(after, before);
  }

  lemma ReverseBefore<T>(s: seq<T>, x: T, y: T)
    requires Before(s, x, y)
    ensures Before(Reverse(s), y, x)
  {
    var i, j :| 0 <= i < j < |s| && s[i] == x && s[j] == y;
    var r := Reverse(s);
    assert r[|s| - 1 - j] == y && r[|s| - 1 - i] == x;
  }

  lemma BeforeInConcat<T>(a: seq<T>, b: seq<T>, x: T, y: T)
    requires Before(a, x, y) || Before(b, x, y)
    ensures Before(a + b, x, y)
  {
    if Before(a, x, y) {
      var i, j :| 0 <= i < j < |a| && a[i] == x && a[j] == y;
      assert (a + b)[i] == x && (a + b)[j] == y;
    } else {
      var i, j :| 0 <= i < j < |b| && b[i] == x && b[j] == y;
      assert (a + b)[|a| + i] == x && (a + b)[|a| + j] == y;
    }
  }

  /** A tie of one loop comes out in the order of the inputs, so reversing them reverses it. */
  lemma TieFollowsInput(before: seq<Source>, after: seq<Source>, leq: (string, string) -> bool, x: Item, y: Item)
    requires DistinctKeys(before) && DistinctKeys(after)
    requires Before(BeforeItems(before, after), x, y) || Before(AfterItems(before, after), x, y)
    requires leq(x.sourceId, y.sourceId) && leq(y.sourceId, x.sourceId)
    ensures Before(Diff(before, after, leq), x, y)
    ensures Before(Diff(Reverse(before), Reverse(after), leq), y, x)
  {
    var left, right := BeforeItems(before, after), AfterItems(before, after);
    BeforeInConcat(left, right, x, y);
    SortStable(left + right, ById(leq), x, y);
    ReversedPasses(before, after);
    if Before(left, x, y) {
      ReverseBefore(left, x, y);
    } else {
      ReverseBefore(right, x, y);
    }
    BeforeInConcat(Reverse(left), Reverse(right), y, x);
    SortStable(Reverse(left) + Reverse(right), ById(leq), y, x);
  }

  lemma EitherBefore<T>(s: seq<T>, x: T, y: T)
    requires x in s && y in s && x != y
    ensures Before(s, x, y) || Before(s, y, x)
  {
    var i :| 0 <= i < |s| && s[i] == x;
    var j :| 0 <= j < |s| && s[j] == y;
  }

  lemma NotBothBefore(items: seq<Item>, x: Item, y: Item)
    requires DistinctItems(items)
    ensures Before(items, x, y) ==> !Before(items, y, x)
  {
  }

  /** With such a tie, reversing both inputs changes the sequence. */
  lemma OrderMatters(before: seq<Source>, after: seq<Source>, leq: (string, string) -> bool)
    requires DistinctKeys(before) && DistinctKeys(after) && TieInOnePass(Diff(before, after, leq), leq)
    ensures Diff(Reverse(before), Reverse(after), leq) != Diff(before, after, leq)
  {
    var s := Diff(before, after, leq);
    var x, y :| x in s && y in s && x != y && x.op.Added? == y.op.Added?
             && leq(x.sourceId, y.sourceId) && leq(y.sourceId, x.sourceId);
    DiffIsDiff(before, after, leq);
    PassItems(before, after, x);
    PassItems(before, after, y);
    EitherBefore(if x.op.Added? then AfterItems(before, after) else BeforeItems(before, after), x, y);
    var pass := if x.op.Added? then AfterItems(before, after) else BeforeItems(before, after);
    if Before(pass, x, y) {
      TieFollowsInput(before, after, leq, x, y);
    } else {
      TieFollowsInput(before, after, leq, y, x);
    }
    NotBothBefore(s, x, y);
  }

  /** The key's hash, or its presence, differs between the two lists. */
  predicate Changed(before: seq<Source>, after: seq<Source>, key: string) {
    HashIn(At(before, key)) != HashIn(At(after, key))
  }

  /** The id a changed key is sorted by: its new source's, or its old one's when it is gone. */
  function SortedAs(before: seq<Source>, after: seq<Source>, key: string): string
    requires Changed(before, after, key)
  {
    match At(after, key)
    case Some(s) => SourceId(s)
    case None => SourceId(At(before, key).value)
  }

  ghost predicate Tied(before: seq<Source>, after: seq<Source>, leq: (string, string) -> bool, j: string, k: string) {
    && j != k && Changed(before, after, j) && Changed(before, after, k)
    && (At(before, j).Some? <==> At(before, k).Some?)
    && leq(SortedAs(before, after, j), SortedAs(before, after, k))
    && leq(SortedAs(before, after, k), SortedAs(before, after, j))
  }

  /** Two changed keys, both old or both new, that the comparator ties. */
  ghost predicate TiedKeys(before: seq<Source>, after: seq<Source>, leq: (string, string) -> bool) {
    exists j, k :: Tied(before, after, leq, j, k)
  }

  lemma ChangeIsSortedAs(before: seq<Source>, after: seq<Source>, key: string)
    ensures ChangeOf(before, after, key).Some? <==> Changed(before, after, key)
    ensures ChangeOf(before, after, key).Some? ==>
              && ChangeOf(before, after, key).value.sourceId == SortedAs(before, after, key)
              && (ChangeOf(before, after, key).value.op.Added? <==> At(before, key).None?)
  {
  }

  lemma TiedKeysTie(before: seq<Source>, after: seq<Source>, leq: (string, string) -> bool)
    ensures TiedKeys(before, after, leq) <==> TieInOnePass(Diff(before, after, leq), leq)
  {
    var items := Diff(before, after, leq);
    DiffIsDiff(before, after, leq);
    if TiedKeys(before, after, leq) {
      var j, k :| Tied(before, after, leq, j, k);
      TiedKeysAreItems(before, after, items, leq, j, k);
    }
    if TieInOnePass(items, leq) {
      var x, y :| x in items && y in items && x != y && x.op.Added? == y.op.Added?
               && leq(x.sourceId, y.sourceId) && leq(y.sourceId, x.sourceId);
      ChangeIsSortedAs(before, after, ItemKey(x));
      ChangeIsSortedAs(before, after, ItemKey(y));
      assert Tied(before, after, leq, ItemKey(x), ItemKey(y));
    }
  }

  lemma TiedKeysAreItems(
    before: seq<Source>, after: seq<Source>, items: seq<Item>, leq: (string, string) -> bool, j: string, k: string)
    requires IsDiff(items, before, after) && Tied(before, after, leq, j, k)
    ensures TieInOnePass(items, leq)
  {
    ChangeIsSortedAs(before, after, j);
    ChangeIsSortedAs(before, after, k);
    ChangeKey(before, after, j);
    ChangeKey(before, after, k);
    var x, y := ChangeOf(before, after, j).value, ChangeOf(before, after, k).value;
    assert x in items && y in items && x != y;
  }

  /**
   * For sources with distinct keys the diff is the same sequence for every order of
   * the two inputs, if and only if the comparator ties no two changed keys that are
   * both in the old list or both absent from it. A key of the old list and one only the
   * new list has may tie: removed and modified come first.
   */
  lemma OrderIndependentExactly(before: seq<Source>, after: seq<Source>, leq: (string, string) -> bool)
    requires TotalPreorder(leq) && DistinctKeys(before) && DistinctKeys(after)
    ensures (forall before', after' :: Reordered(before, before') && Reordered(after, after') ==>
              Diff(before', after', leq) == Diff(before, after, leq))
       <==> !TiedKeys(before, after, leq)
  {
    hide TiedKeys, TieInOnePass, Diff;
    TiedKeysTie(before, after, leq);
    if TieInOnePass(Diff(before, after, leq), leq) {
      OrderMatters(before, after, leq);
      ReverseReordered(before);
      ReverseReordered(after);
    } else {
      forall before', after' | Reordered(before, before') && Reordered(after, after')
        ensures Diff(before', after', leq) == Diff(before, after, leq)
      {
        OrderIndependent(before, before', after, after', leq);
      }
    }
  }

  function FileSource(name: string): Source {
    Source("file", Some(name), None, None, [], None)
  }

  function ContentsSource(name: string): Source {
    Source("contents", None, Some(name), None, [], None)
  }

  lemma NamesakesDiffer(name: string)
    ensures SourceKey(FileSource(name)) != SourceKey(ContentsSource(name))
    ensures SourceId(FileSource(name)) == SourceId(ContentsSource(name)) == name
  {
    assert |SourceKey(FileSource(name))| != |SourceKey(ContentsSource(name))|;
  }

  lemma RemovedIsListed(before: seq<Source>, s: Source, leq: (string, string) -> bool)
    requires DistinctKeys(before) && s in before
    ensures RemovedItem(s) in Diff(before, [], leq)
  {
    AtDistinct(before, s);
    DiffIsDiff(before, [], leq);
    assert ChangeOf(before, [], SourceKey(s)) == Some(RemovedItem(s));
  }

  /** For instance a removed file and a removed contents source of one name: they come out in input order. */
  lemma FileAndContentsTie(name: string, leq: (string, string) -> bool)
    requires TotalPreorder(leq)
    ensures Diff([FileSource(name), ContentsSource(name)], [], leq)
         != Diff([ContentsSource(name), FileSource(name)], [], leq)
  {
    hide Diff, SourceKey, SourceId, TieInOnePass;
    var before := [FileSource(name), ContentsSource(name)];
    var none: seq<Source> := [];
    NamesakesDiffer(name);
    RemovedIsListed(before, before[0], leq);
    RemovedIsListed(before, before[1], leq);
    TiedItems(Diff(before, none, leq), RemovedItem(before[0]), RemovedItem(before[1]), leq);
    OrderMatters(before, none, leq);
    assert Reverse(before) == [before[1], before[0]] && Reverse(none) == none;
  }

  lemma TiedItems(items: seq<Item>, x: Item, y: Item, leq: (string, string) -> bool)
    requires TotalPreorder(leq) && x in items && y in items && x != y && x.op == y.op && x.sourceId == y.sourceId
    ensures TieInOnePass(items, leq)
  {
    assert leq(x.sourceId, y.sourceId);
  }

  // ---------------------------------------------------------------- the diff in the sources' own values

  /** The name a source goes by: override, else path, else id, else kind; of contents id, else kind. */
  predicate ShownAs(s: Source, name: string) {
    if s.kind == "contents" then
      if s.id != None then s.id == Some(name) else name == "contents"
    else if s.overrideHashKey != None then s.overrideHashKey == Some(name)
    else if s.filePath != None then s.filePath == Some(name)
    else if s.id != None then s.id == Some(name)
    else name == s.kind
  }

  /** Both go by one name, and are of one kind or a file and a directory. */
  ghost predicate Same(a: Source, b: Source) {
    && (a.kind == b.kind || (a.kind in {"file", "dir"} && b.kind in {"file", "dir"}))
    && exists name :: ShownAs(a, name) && ShownAs(b, name)
  }

  /** The last source of its name and kind in the list. */
  ghost predicate Latest(list: seq<Source>, i: int) {
    0 <= i < |list| && forall j | i < j < |list| :: !Same(list[j], list[i])
  }

  ghost predicate Absent(s: Source, list: seq<Source>) {
    forall other | other in list :: !Same(other, s)
  }

  ghost predicate ReportsRemoved(b: Source, after: seq<Source>, item: Item) {
    Absent(b, after) && ShownAs(b, item.sourceId)
    && item == Item(Removed, item.sourceId, b.kind, b.reasons, Some(b.hash), None)
  }

  ghost predicate ReportsAdded(a: Source, before: seq<Source>, item: Item) {
    Absent(a, before) && ShownAs(a, item.sourceId)
    && item == Item(Added, item.sourceId, a.kind, a.reasons, None, Some(a.hash))
  }

  ghost predicate ReportsModified(b: Source, a: Source, item: Item) {
    Same(b, a) && b.hash != a.hash && ShownAs(a, item.sourceId)
    && item == Item(Modified, item.sourceId, a.kind, a.reasons, Some(b.hash), Some(a.hash))
  }

  /** What the two lists say of an item, each name and kind standing for its last source. */
  ghost predicate Reports(before: seq<Source>, after: seq<Source>, item: Item) {
    match item.op
    case Removed => exists i :: Latest(before, i) && ReportsRemoved(before[i], after, item)
    case Added => exists i :: Latest(after, i) && ReportsAdded(after[i], before, item)
    case Modified => exists i, j :: Latest(before, i) && Latest(after, j) && ReportsModified(before[i], after[j], item)
  }

  lemma ShownIsId(s: Source, name: string)
    ensures ShownAs(s, name) <==> name == SourceId(s)
  {
  }

  /** Among kinds without a colon sources are the same exactly when they have one key. */
  lemma SameIsKey(a: Source, b: Source)
    requires ':' !in a.kind && ':' !in b.kind
    ensures Same(a, b) <==> SourceKey(a) == SourceKey(b)
  {
    ShownIsId(a, SourceId(a));
    ShownIsId(b, SourceId(a));
    if SourceKey(a) == SourceKey(b) {
      KeyGivesId(a.kind, SourceId(a), b.kind, SourceId(b));
      SameSpace(a.kind, b.kind, SourceId(a));
      assert ShownAs(a, SourceId(a)) && ShownAs(b, SourceId(a));
    }
    if Same(a, b) {
      var name :| ShownAs(a, name) && ShownAs(b, name);
      ShownIsId(a, name);
      ShownIsId(b, name);
    }
  }

  lemma SameSpace(kind: string, kind': string, id: string)
    requires Key(kind, id) == Key(kind', id)
    ensures kind == kind' || (kind in {"file", "dir"} && kind' in {"file", "dir"})
  {
    var a, b := if kind == "dir" then "file" else kind, if kind' == "dir" then "file" else kind';
    assert (a + ":" + id)[..|a|] == a && (b + ":" + id)[..|b|] == b;
    assert |a| == |b|;
  }

  /** A lookup finds the last source of the key. */
  lemma {:induction false} AtIsLatest(list: seq<Source>, key: string)
    requires PlainKinds(list)
    ensures At(list, key).Some? ==> exists i :: Latest(list, i) && list[i] == At(list, key).value
    ensures At(list, key).None? ==> forall s | s in list :: SourceKey(s) != key
  {
    hide SourceKey, Same;
    if list != [] {
      var n := |list| - 1;
      AtIsLatest(list[..n], key);
      AtHasKey(list, key);
      if SourceKey(list[n]) == key {
        assert Latest(list, n);
      } else if At(list, key).Some? {
        var i :| Latest(list[..n], i) && list[..n][i] == At(list, key).value;
        SameIsKey(list[n], list[i]);
        assert Latest(list, i);
      }
    }
  }

  /** And the latest source is what its key finds. */
  lemma {:induction false} LatestIsAt(list: seq<Source>, i: nat)
    requires PlainKinds(list) && Latest(list, i)
    ensures At(list, SourceKey(list[i])) == Some(list[i])
  {
    hide SourceKey, Same;
    var n := |list| - 1;
    if i < n {
      SameIsKey(list[n], list[i]);
      assert Latest(list[..n], i);
      LatestIsAt(list[..n], i);
    }
  }

  lemma AbsentIsNone(s: Source, list: seq<Source>)
    requires PlainKinds(list) && ':' !in s.kind
    ensures Absent(s, list) <==> At(list, SourceKey(s)).None?
  {
    hide SourceKey, Same;
    var key := SourceKey(s);
    AtIsLatest(list, key);
    AtHasKey(list, key);
    AtIsIn(list, key);
    forall other | other in list
      ensures Same(other, s) <==> SourceKey(other) == key
    {
      SameIsKey(other, s);
    }
  }

  lemma ReportedIsChange(before: seq<Source>, after: seq<Source>, item: Item)
    requires PlainKinds(before) && PlainKinds(after) && Reports(before, after, item)
    ensures ChangeOf(before, after, ItemKey(item)) == Some(item)
  {
    hide Same, Key;
    match item.op
    case Removed =>
      var i :| Latest(before, i) && ReportsRemoved(before[i], after, item);
      LatestIsAt(before, i);
      AbsentIsNone(before[i], after);
      ShownIsId(before[i], item.sourceId);
    case Added =>
      var i :| Latest(after, i) && ReportsAdded(after[i], before, item);
      LatestIsAt(after, i);
      AbsentIsNone(after[i], before);
      ShownIsId(after[i], item.sourceId);
    case Modified =>
      var i, j :| Latest(before, i) && Latest(after, j) && ReportsModified(before[i], after[j], item);
      LatestIsAt(before, i);
      LatestIsAt(after, j);
      SameIsKey(before[i], after[j]);
      ShownIsId(after[j], item.sourceId);
  }

  lemma ChangeIsReported(before: seq<Source>, after: seq<Source>, item: Item)
    requires PlainKinds(before) && PlainKinds(after) && ChangeOf(before, after, ItemKey(item)) == Some(item)
    ensures Reports(before, after, item)
  {
    hide Same, Key;
    var key := ItemKey(item);
    AtIsLatest(before, key);
    AtIsLatest(after, key);
    AtHasKey(before, key);
    AtHasKey(after, key);
    match item.op
    case Removed =>
      var i :| Latest(before, i) && before[i] == At(before, key).value;
      AbsentIsNone(before[i], after);
      ShownIsId(before[i], item.sourceId);
    case Added =>
      var i :| Latest(after, i) && after[i] == At(after, key).value;
      AbsentIsNone(after[i], before);
      ShownIsId(after[i], item.sourceId);
    case Modified =>
      var i :| Latest(before, i) && before[i] == At(before, key).value;
      var j :| Latest(after, j) && after[j] == At(after, key).value;
      SameIsKey(before[i], after[j]);
      ShownIsId(after[j], item.sourceId);
  }

  /** With colon-free kinds the diff has exactly the items that the sources' own values report. */
  lemma DiffReports(before: seq<Source>, after: seq<Source>, leq: (string, string) -> bool, item: Item)
    requires PlainKinds(before) && PlainKinds(after)
    ensures item in Diff(before, after, leq) <==> Reports(before, after, item)
  {
    hide Reports, Diff, ItemKey;
    DiffIsDiff(before, after, leq);
    if Reports(before, after, item) {
      ReportedIsChange(before, after, item);
    }
    if item in Diff(before, after, leq) {
      ChangeIsReported(before, after, item);
    }
  }

  lemma OnlyItem(items: seq<Item>, x: Item)
    requires DistinctItems(items) && x in items && forall y | y in items :: y == x
    ensures items == [x]
  {
    forall i | 0 <= i < |items|
      ensures items[i] == x
    {
      assert items[i] in items;
    }
    if |items| > 1 {
      TwoDiffer(items);
    }
  }

  lemma TwoDiffer(items: seq<Item>)
    requires DistinctItems(items) && |items| > 1
    ensures exists y, z :: y in items && z in items && y != z
  {
    assert items[0] in items && items[1] in items && ItemKey(items[0]) != ItemKey(items[1]);
  }

  lemma SomeItem(items: seq<Item>)
    ensures items == [] || exists y :: y in items
  {
    if items != [] {
      assert items[0] in items;
    }
  }

  lemma DiffIsDistinct(before: seq<Source>, after: seq<Source>, leq: (string, string) -> bool)
    ensures DistinctItems(Diff(before, after, leq))
  {
    DiffIsDiff(before, after, leq);
  }

  /** For instance a source that is only there before, or only after, is one item, under its name. */
  lemma LoneSource(s: Source, name: string, leq: (string, string) -> bool)
    requires ':' !in s.kind && ShownAs(s, name)
    ensures Diff([s], [], leq) == [Item(Removed, name, s.kind, s.reasons, Some(s.hash), None)]
    ensures Diff([], [s], leq) == [Item(Added, name, s.kind, s.reasons, None, Some(s.hash))]
  {
    hide Diff, Same;
    var removed := Item(Removed, name, s.kind, s.reasons, Some(s.hash), None);
    var added := Item(Added, name, s.kind, s.reasons, None, Some(s.hash));
    assert Latest([s], 0) && ReportsRemoved([s][0], [], removed) && ReportsAdded([s][0], [], added);
    forall item
      ensures item in Diff([s], [], leq) <==> item == removed
      ensures item in Diff([], [s], leq) <==> item == added
    {
      ShownIsId(s, name);
      ShownIsId(s, item.sourceId);
      DiffReports([s], [], leq, item);
      DiffReports([], [s], leq, item);
    }
    DiffIsDistinct([s], [], leq);
    DiffIsDistinct([], [s], leq);
    OnlyItem(Diff([s], [], leq), removed);
    OnlyItem(Diff([], [s], leq), added);
  }

  /** And of one source before and one after: nothing or one modified item when they are the same, else two items. */
  lemma TwoSources(b: Source, a: Source, x: string, y: string, leq: (string, string) -> bool)
    requires ':' !in b.kind && ':' !in a.kind && ShownAs(b, x) && ShownAs(a, y)
    ensures Same(b, a) && b.hash == a.hash ==> Diff([b], [a], leq) == []
    ensures Same(b, a) && b.hash != a.hash ==>
              Diff([b], [a], leq) == [Item(Modified, y, a.kind, a.reasons, Some(b.hash), Some(a.hash))]
    ensures !Same(b, a) ==> forall item :: item in Diff([b], [a], leq) <==>
              || item == Item(Removed, x, b.kind, b.reasons, Some(b.hash), None)
              || item == Item(Added, y, a.kind, a.reasons, None, Some(a.hash))
  {
    hide Diff, Same;
    SameIsKey(a, b);
    SameIsKey(b, a);
    assert Latest([b], 0) && Latest([a], 0);
    var modified := Item(Modified, y, a.kind, a.reasons, Some(b.hash), Some(a.hash));
    forall item
      ensures item in Diff([b], [a], leq) <==>
                if Same(b, a) then b.hash != a.hash && item == modified
                else || item == Item(Removed, x, b.kind, b.reasons, Some(b.hash), None)
                     || item == Item(Added, y, a.kind, a.reasons, None, Some(a.hash))
    {
      ShownIsId(b, x);
      ShownIsId(a, y);
      ShownIsId(b, item.sourceId);
      ShownIsId(a, item.sourceId);
      DiffReports([b], [a], leq, item);
      TwoReport(b, a, item);
    }
    DiffIsDistinct([b], [a], leq);
    if Same(b, a) && b.hash != a.hash {
      OnlyItem(Diff([b], [a], leq), modified);
    }
    SomeItem(Diff([b], [a], leq));
  }

  lemma TwoReport(b: Source, a: Source, item: Item)
    requires Same(a, b) <==> Same(b, a)
    ensures Reports([b], [a], item) <==>
              match item.op
              case Removed => ReportsRemoved(b, [a], item)
              case Added => ReportsAdded(a, [b], item)
              case Modified => ReportsModified(b, a, item)
    ensures (Absent(b, [a]) <==> !Same(b, a)) && (Absent(a, [b]) <==> !Same(b, a))
  {
    hide Same;
    assert Latest([b], 0) && Latest([a], 0) && [b][0] == b && [a][0] == a;
    assert a in [a] && b in [b];
  }
}
