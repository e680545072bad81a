/** `toSorted` with a comparator: the stable sort, and what determines its result. */
module StableSort {
  ghost predicate TotalPreorder<T(!new)>(leq: (T, T) -> bool) {
    && (forall x, y {:trigger leq(x, y)} :: leq(x, y) || leq(y, x))
    && (forall x, y, z {:trigger leq(x, y), leq(y, z)} :: leq(x, y) && leq(y, z) ==> leq(x, z))
  }

  /** Places `x` right after the last element that is not above it. */
  function Insert<T>(x: T, s: seq<T>, leq: (T, T) -> bool): seq<T> {
    if s == [] then [x]
    else if leq(s[|s| - 1], x) then s + [x]
    else Insert(x, s[..|s| - 1], leq) + [s[|s| - 1]]
  }

  function Sort<T>(s: seq<T>, leq: (T, T) -> bool): seq<T> {
    if s == [] then [] else Insert(s[|s| - 1], Sort(s[..|s| - 1], leq), leq)
  }

  lemma {:induction false} InsertPermutes<T>(x: T, s: seq<T>, leq: (T, T) -> bool)
    ensures multiset(Insert(x, s, leq)) == multiset(s) + multiset{x}
  {
    if s != [] && !leq(s[|s| - 1], x) {
      InsertPermutes(x, s[..|s| - 1], leq);
      assert s == s[..|s| - 1] + [s[|s| - 1]];
    }
  }

  lemma SplitLast<T>(s: seq<T>)
    requires s != []
    ensures s == s[..|s| - 1] + [s[|s| - 1]]
    ensures multiset(s) == multiset(s[..|s| - 1]) + multiset{s[|s| - 1]}
  {
    assert s == s[..|s| - 1] + [s[|s| - 1]];
  }

  lemma {:induction false} SortPermutes<T>(s: seq<T>, leq: (T, T) -> bool)
    ensures multiset(Sort(s, leq)) == multiset(s)
  {
    if s != [] {
      SplitLast(s);
      SortPermutes(s[..|s| - 1], leq);
      InsertPermutes(s[|s| - 1], Sort(s[..|s| - 1], leq), leq);
    }
  }

  predicate SortedBy<T>(s: seq<T>, r: (T, T) -> bool) {
    forall i, j | 0 <= i < j < |s| :: r(s[i], s[j])
  }

  /** Order first, then a rank for what the order ties. */
  function Ranked<T>(leq: (T, T) -> bool, rank: T -> nat): (T, T) -> bool {
    (x, y) => leq(x, y) && (leq(y, x) ==> rank(x) <= rank(y))
  }

  lemma {:induction false} InsertSorted<T(!new)>(x: T, s: seq<T>, leq: (T, T) -> bool, rank: T -> nat)
    requires TotalPreorder(leq) && SortedBy(s, Ranked(leq, rank))
    requires forall y | y in s :: rank(y) <= rank(x)
    ensures SortedBy(Insert(x, s, leq), Ranked(leq, rank))
  {
    if s != [] {
      var n := |s| - 1;
      if leq(s[n], x) {
        forall i | 0 <= i < |s|
          ensures Ranked(leq, rank)(s[i], x)
        {
          assert i < n ==> Ranked(leq, rank)(s[i], s[n]);
        }
      } else {
        InsertSorted(x, s[..n], leq, rank);
        var left := Insert(x, s[..n], leq);
        forall i | 0 <= i < |left|
          ensures Ranked(leq, rank)(left[i], s[n])
        {
          InsertPermutes(x, s[..n], leq);
          assert left[i] in multiset(left);
          assert left[i] == x || left[i] in s[..n];
        }
      }
    }
  }

  /** Sorting something already in rank order keeps the rank order among ties. */
  lemma {:induction false} SortSorted<T(!new)>(s: seq<T>, leq: (T, T) -> bool, rank: T -> nat)
    requires TotalPreorder(leq) && SortedBy(s, (x, y) => rank(x) <= rank(y))
    ensures SortedBy(Sort(s, leq), Ranked(leq, rank))
  {
    if s != [] {
      var n := |s| - 1;
      SortSorted(s[..n], leq, rank);
      SortPermutes(s[..n], leq);
      forall y | y in Sort(s[..n], leq)
        ensures rank(y) <= rank(s[n])
      {
        assert y in multiset(s[..n]);
        var i :| 0 <= i < n && s[i] == y;
        assert ((x, y) => rank(x) <= rank(y))(s[i], s[n]);
      }
      InsertSorted(s[n], Sort(s[..n], leq), leq, rank);
    }
  }

  lemma LastIsAbove<T>(s: seq<T>, r: (T, T) -> bool, x: T)
    requires SortedBy(s, r) && x in s && x != s[|s| - 1]
    ensures r(x, s[|s| - 1])
  {
    var i :| 0 <= i < |s| && s[i] == x;
  }

  lemma SameLast<T>(s: seq<T>, t: seq<T>, r: (T, T) -> bool)
    requires SortedBy(s, r) && SortedBy(t, r) && multiset(s) == multiset(t) && s != [] && t != []
    requires Antisymmetric(s, r)
    ensures s[|s| - 1] == t[|t| - 1]
  {
    var x, y := s[|s| - 1], t[|t| - 1];
    assert x in multiset(t) && y in multiset(s);
    if x != y {
      LastIsAbove(s, r, y);
      LastIsAbove(t, r, x);
    }
  }

  lemma SameInits<T>(s: seq<T>, t: seq<T>)
    requires multiset(s) == multiset(t) && s != []
    ensures |s| == |t|
    ensures s[|s| - 1] == t[|t| - 1] ==> multiset(s[..|s| - 1]) == multiset(t[..|t| - 1])
  {
    assert |s| == |multiset(s)| == |multiset(t)| == |t|;
    SplitLast(s);
    SplitLast(t);
    var x := s[|s| - 1];
    if x == t[|t| - 1] {
      assert multiset(s[..|s| - 1]) == multiset(s) - multiset{x};
      assert multiset(t[..|t| - 1]) == multiset(t) - multiset{x};
    }
  }

  ghost predicate Antisymmetric<T>(s: seq<T>, r: (T, T) -> bool) {
    forall x, y {:trigger r(x, y)} | x in s && y in s :: r(x, y) && r(y, x) ==> x == y
  }

  /** Where the relation ties nothing, a collection of elements has one sorted order. */
  lemma {:induction false} OneSortedOrder<T>(s: seq<T>, t: seq<T>, r: (T, T) -> bool)
    requires SortedBy(s, r) && SortedBy(t, r) && multiset(s) == multiset(t) && Antisymmetric(s, r)
    ensures s == t
  {
    if s == [] {
      assert |multiset(t)| == 0;
    } else {
      SameInits(s, t);
      SameLast(s, t, r);
      OneSortedOrder(s[..|s| - 1], t[..|t| - 1], r);
      SplitLast(s);
      SplitLast(t);
    }
  }

  ghost predicate Before<T>(s: seq<T>, x: T, y: T) {
    exists i, j :: 0 <= i < j < |s| && s[i] == x && s[j] == y
  }

  lemma BeforeAppend<T>(s: seq<T>, last: T, x: T, y: T)
    requires Before(s, x, y) || (x in s && y == last)
    ensures Before(s + [last], x, y)
  {
    var t := s + [last];
    if Before(s, x, y) {
      var i, j :| 0 <= i < j < |s| && s[i] == x && s[j] == y;
      assert t[i] == x && t[j] == y;
    } else {
      var i :| 0 <= i < |s| && s[i] == x;
      assert t[i] == x && t[|s|] == y;
    }
  }

  lemma BeforeInit<T>(s: seq<T>, x: T, y: T)
    requires Before(s, x, y)
    ensures Before(s[..|s| - 1], x, y) || (x in s[..|s| - 1] && y == s[|s| - 1])
  {
    var i, j :| 0 <= i < j < |s| && s[i] == x && s[j] == y;
    var init := s[..|s| - 1];
    assert init[i] == x;
    if j < |s| - 1 {
      assert init[j] == y;
    }
  }

  lemma {:induction false} InsertStable<T>(z: T, s: seq<T>, leq: (T, T) -> bool, x: T, y: T)
    requires Before(s, x, y) || (x in s && y == z && leq(x, z))
    ensures Before(Insert(z, s, leq), x, y)
  {
    var n := |s| - 1;
    if leq(s[n], z) {
      BeforeAppend(s, z, x, y);
    } else {
      assert s == s[..n] + [s[n]];
      InsertPermutes(z, s[..n], leq);
      if Before(s, x, y) {
        BeforeInit(s, x, y);
        if Before(s[..n], x, y) {
          InsertStable(z, s[..n], leq, x, y);
        } else {
          assert x in multiset(Insert(z, s[..n], leq));
        }
      } else {
        InsertStable(z, s[..n], leq, x, y);
      }
      BeforeAppend(Insert(z, s[..n], leq), s[n], x, y);
    }
  }

  /** Tied elements keep their order. */
  lemma {:induction false} SortStable<T>(s: seq<T>, leq: (T, T) -> bool, x: T, y: T)
    requires Before(s, x, y) && leq(x, y)
    ensures Before(Sort(s, leq), x, y)
  {
    var n := |s| - 1;
    BeforeInit(s, x, y);
    if Before(s[..n], x, y) {
      SortStable(s[..n], leq, x, y);
    } else {
      SortPermutes(s[..n], leq);
      assert x in multiset(Sort(s[..n], leq));
    }
    InsertStable(s[n], Sort(s[..n], leq), leq, x, y);
  }
}
