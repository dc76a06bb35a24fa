/** Python's `sorted`: a stable sort by any total preorder, and what determines its result. */
module StableSort {

  ghost predicate TotalPreorder<T(!new)>(leq: (T, T) -> bool) {
    && (forall a, b :: leq(a, b) || leq(b, a))
    && (forall a, b, c :: leq(a, b) && leq(b, c) ==> leq(a, c))
  }

  /** `x` goes after everything that may stand before it. */
  function Insert<T>(s: seq<T>, x: T, leq: (T, T) -> bool): (r: seq<T>)
    ensures |r| == |s| + 1
  {
    if s == [] || leq(s[|s| - 1], x) then s + [x]
    else Insert(s[..|s| - 1], x, leq) + [s[|s| - 1]]
  }

  function Sorted<T>(s: seq<T>, leq: (T, T) -> bool): (r: seq<T>)
    ensures |r| == |s|
  {
    if s == [] then [] else Insert(Sorted(s[..|s| - 1], leq), s[|s| - 1], leq)
  }

  ghost predicate Ordered<T>(s: seq<T>, leq: (T, T) -> bool) {
    forall i, j :: 0 <= i < j < |s| ==> leq(s[i], s[j])
  }

  /** The elements that tie with `x`, in order. */
  function Tied<T>(s: seq<T>, x: T, leq: (T, T) -> bool): seq<T> {
    if s == [] then []
    else
      var last := s[|s| - 1];
      Tied(s[..|s| - 1], x, leq) + if leq(last, x) && leq(x, last) then [last] else []
  }

  lemma {:induction false} InsertMembers<T>(s: seq<T>, x: T, leq: (T, T) -> bool)
    ensures multiset(Insert(s, x, leq)) == multiset(s) + multiset{x}
  {
    if s != [] {
      assert s == s[..|s| - 1] + [s[|s| - 1]];
      InsertMembers(s[..|s| - 1], x, leq);
    }
  }

  lemma {:induction false} SortedPermutes<T>(s: seq<T>, leq: (T, T) -> bool)
    ensures multiset(Sorted(s, leq)) == multiset(s)
  {
    if s != [] {
      assert s == s[..|s| - 1] + [s[|s| - 1]];
      SortedPermutes(s[..|s| - 1], leq);
      InsertMembers(Sorted(s[..|s| - 1], leq), s[|s| - 1], leq);
    }
  }

  lemma {:induction false} InsertOrdered<T(!new)>(s: seq<T>, x: T, leq: (T, T) -> bool)
    requires TotalPreorder(leq) && Ordered(s, leq)
    ensures Ordered(Insert(s, x, leq), leq)
  {
    if s == [] || leq(s[|s| - 1], x) {
    } else {
      var front, last := s[..|s| - 1], s[|s| - 1];
      InsertOrdered(front, x, leq);
      InsertMembers(front, x, leq);
      forall i | 0 <= i < |s|
        ensures leq(Insert(front, x, leq)[i], last)
      {
        assert Insert(front, x, leq)[i] in multiset(Insert(front, x, leq));
        if Insert(front, x, leq)[i] != x {
          assert Insert(front, x, leq)[i] in front;
        }
      }
    }
  }

  lemma {:induction false} SortedOrdered<T(!new)>(s: seq<T>, leq: (T, T) -> bool)
    requires TotalPreorder(leq)
    ensures Ordered(Sorted(s, leq), leq)
  {
    if s != [] {
      SortedOrdered(s[..|s| - 1], leq);
      InsertOrdered(Sorted(s[..|s| - 1], leq), s[|s| - 1], leq);
    }
  }

  lemma {:induction false} InsertTied<T(!new)>(s: seq<T>, x: T, y: T, leq: (T, T) -> bool)
    requires TotalPreorder(leq)
    ensures Tied(Insert(s, x, leq), y, leq) == Tied(s, y, leq) + Tied([x], y, leq)
  {
    if s == [] || leq(s[|s| - 1], x) {
      assert (s + [x])[..|s|] == s;
    } else {
      var front, last := s[..|s| - 1], s[|s| - 1];
      InsertTied(front, x, y, leq);
      assert (Insert(front, x, leq) + [last])[..|s|] == Insert(front, x, leq);
    }
  }

  /** Elements that tie keep their order. */
  lemma {:induction false} SortedStable<T(!new)>(s: seq<T>, y: T, leq: (T, T) -> bool)
    requires TotalPreorder(leq)
    ensures Tied(Sorted(s, leq), y, leq) == Tied(s, y, leq)
  {
    if s != [] {
      SortedStable(s[..|s| - 1], y, leq);
      InsertTied(Sorted(s[..|s| - 1], leq), s[|s| - 1], y, leq);
    }
  }

  lemma {:induction false} TiedMember<T>(s: seq<T>, x: T, e: T, leq: (T, T) -> bool)
    ensures e in Tied(s, x, leq) <==> e in s && leq(e, x) && leq(x, e)
  {
    if s != [] {
      assert s == s[..|s| - 1] + [s[|s| - 1]];
      TiedMember(s[..|s| - 1], x, e, leq);
    }
  }

  ghost predicate SameTies<T(!new)>(s: seq<T>, t: seq<T>, leq: (T, T) -> bool) {
    forall y :: Tied(s, y, leq) == Tied(t, y, leq)
  }

  lemma LastIn<T(!new)>(s: seq<T>, t: seq<T>, leq: (T, T) -> bool)
    requires TotalPreorder(leq) && Ordered(s, leq) && SameTies(s, t, leq) && t != []
    ensures s != [] && leq(t[|t| - 1], s[|s| - 1])
  {
    var b := t[|t| - 1];
    TiedMember(t, b, b, leq);
    assert Tied(s, b, leq) == Tied(t, b, leq);
    TiedMember(s, b, b, leq);
    var i :| 0 <= i < |s| && s[i] == b;
    assert i < |s| - 1 ==> leq(s[i], s[|s| - 1]);
  }

  lemma LastTie<T>(s: seq<T>, x: T, leq: (T, T) -> bool)
    requires s != [] && leq(s[|s| - 1], x) && leq(x, s[|s| - 1])
    ensures Tied(s, x, leq) != [] && Tied(s, x, leq)[|Tied(s, x, leq)| - 1] == s[|s| - 1]
  {
  }

  lemma CancelEnd<T>(a: seq<T>, b: seq<T>, c: seq<T>)
    requires a + c == b + c
    ensures a == b
  {
    assert a == (a + c)[..|a|] && b == (b + c)[..|b|];
  }

  /** Being ordered and having the same ties in the same order leaves one result only. */
  lemma {:induction false} OneStableOrder<T(!new)>(s: seq<T>, t: seq<T>, leq: (T, T) -> bool)
    requires TotalPreorder(leq) && Ordered(s, leq) && Ordered(t, leq) && SameTies(s, t, leq)
    ensures s == t
    decreases |s|
  {
    if t != [] {
      LastIn(s, t, leq);
    }
    if s != [] {
      LastIn(t, s, leq);
      var front, rest := s[..|s| - 1], t[..|t| - 1];
      var a, b := s[|s| - 1], t[|t| - 1];
      assert Tied(s, a, leq) == Tied(t, a, leq);
      LastTie(s, a, leq);
      LastTie(t, a, leq);
      forall y
        ensures Tied(front, y, leq) == Tied(rest, y, leq)
      {
        assert Tied(s, y, leq) == Tied(t, y, leq);
        var more := if leq(a, y) && leq(y, a) then [a] else [];
        assert Tied(s, y, leq) == Tied(front, y, leq) + more && Tied(t, y, leq) == Tied(rest, y, leq) + more;
        CancelEnd(Tied(front, y, leq), Tied(rest, y, leq), more);
      }
      OneStableOrder(front, rest, leq);
      assert s == front + [a] && t == rest + [b];
    }
  }

  /** What `sorted` returns: the one ordered arrangement that keeps ties as they were. */
  lemma SortedIs<T(!new)>(s: seq<T>, t: seq<T>, leq: (T, T) -> bool)
    requires TotalPreorder(leq)
    ensures t == Sorted(s, leq) <==> Ordered(t, leq) && SameTies(t, s, leq)
  {
    SortedOrdered(s, leq);
    forall y
      ensures Tied(Sorted(s, leq), y, leq) == Tied(s, y, leq)
    {
      SortedStable(s, y, leq);
    }
    if Ordered(t, leq) && SameTies(t, s, leq) {
      OneStableOrder(t, Sorted(s, leq), leq);
    }
  }

  // ---- filtering ----

  function Filter<T>(s: seq<T>, p: T -> bool): seq<T> {
    if s == [] then []
    else
      var before := Filter(s[..|s| - 1], p);
      if p(s[|s| - 1]) then before + [s[|s| - 1]] else before
  }

  lemma {:induction false} FilterMember<T>(s: seq<T>, p: T -> bool, x: T)
    ensures x in Filter(s, p) <==> x in s && p(x)
  {
    if s != [] {
      assert s == s[..|s| - 1] + [s[|s| - 1]];
      FilterMember(s[..|s| - 1], p, x);
    }
  }

  lemma {:induction false} FilterJoin<T>(a: seq<T>, b: seq<T>, p: T -> bool)
    ensures Filter(a + b, p) == Filter(a, p) + Filter(b, p)
  {
    if b == [] {
      assert a + b == a;
    } else {
      assert (a + b)[..|a + b| - 1] == a + b[..|b| - 1];
      FilterJoin(a, b[..|b| - 1], p);
    }
  }

  lemma {:induction false} TiedJoin<T>(a: seq<T>, b: seq<T>, x: T, leq: (T, T) -> bool)
    ensures Tied(a + b, x, leq) == Tied(a, x, leq) + Tied(b, x, leq)
  {
    if b == [] {
      assert a + b == a;
    } else {
      assert (a + b)[..|a + b| - 1] == a + b[..|b| - 1];
      TiedJoin(a, b[..|b| - 1], x, leq);
    }
  }

  lemma TiedPush<T>(s: seq<T>, c: T, x: T, leq: (T, T) -> bool)
    ensures Tied(s + [c], x, leq) == if leq(c, x) && leq(x, c) then Tied(s, x, leq) + [c] else Tied(s, x, leq)
  {
    assert (s + [c])[..|s|] == s;
  }

  lemma FilterPush<T>(s: seq<T>, c: T, p: T -> bool)
    ensures Filter(s + [c], p) == if p(c) then Filter(s, p) + [c] else Filter(s, p)
  {
    assert (s + [c])[..|s|] == s;
  }

  lemma TiedFilterNone<T>(p: T -> bool, x: T, leq: (T, T) -> bool)
    ensures Tied(Filter([], p), x, leq) == Filter(Tied([], x, leq), p)
  {
  }

  lemma {:induction false} TiedFilter<T>(s: seq<T>, p: T -> bool, x: T, leq: (T, T) -> bool)
    ensures Tied(Filter(s, p), x, leq) == Filter(Tied(s, x, leq), p)
  {
    hide Tied, Filter;
    if s == [] {
      TiedFilterNone(p, x, leq);
    } else {
      var front, last := s[..|s| - 1], s[|s| - 1];
      assert s == front + [last];
      TiedFilter(front, p, x, leq);
      FilterPush(front, last, p);
      TiedPush(front, last, x, leq);
      TiedPush(Filter(front, p), last, x, leq);
      FilterPush(Tied(front, x, leq), last, p);
    }
  }

  lemma {:induction false} FilterOrdered<T>(s: seq<T>, p: T -> bool, leq: (T, T) -> bool)
    requires Ordered(s, leq)
    ensures Ordered(Filter(s, p), leq)
  {
    if s != [] {
      var front, last := s[..|s| - 1], s[|s| - 1];
      FilterOrdered(front, p, leq);
      forall i | 0 <= i < |Filter(front, p)|
        ensures leq(Filter(front, p)[i], last)
      {
        FilterMember(front, p, Filter(front, p)[i]);
      }
    }
  }

  /** Sorting what is left is leaving out of what is sorted. */
  lemma SortedFilter<T(!new)>(s: seq<T>, p: T -> bool, leq: (T, T) -> bool)
    requires TotalPreorder(leq)
    ensures Sorted(Filter(s, p), leq) == Filter(Sorted(s, leq), p)
  {
    hide Tied, Filter, Sorted;
    SortedOrdered(s, leq);
    FilterOrdered(Sorted(s, leq), p, leq);
    forall x
      ensures Tied(Filter(Sorted(s, leq), p), x, leq) == Tied(Filter(s, p), x, leq)
    {
      TiedFilter(Sorted(s, leq), p, x, leq);
      TiedFilter(s, p, x, leq);
      SortedStable(s, x, leq);
    }
    SortedIs(Filter(s, p), Filter(Sorted(s, leq), p), leq);
  }

  /** An element strictly before all others comes first, wherever it stood. */
  lemma SortedFirst<T(!new)>(a: seq<T>, x: T, b: seq<T>, leq: (T, T) -> bool)
    requires TotalPreorder(leq)
    requires forall y :: y in a + b ==> !leq(y, x)
    ensures Sorted(a + [x] + b, leq) == [x] + Sorted(a + b, leq)
  {
    hide Tied, Sorted;
    var rest := Sorted(a + b, leq);
    SortedOrdered(a + b, leq);
    SortedPermutes(a + b, leq);
    forall i | 0 <= i < |rest|
      ensures leq(x, rest[i])
    {
      assert rest[i] in multiset(rest);
    }
    assert Ordered([x] + rest, leq);
    forall y
      ensures Tied([x] + rest, y, leq) == Tied(a + [x] + b, y, leq)
    {
      TiedJoin([x], rest, y, leq);
      SortedStable(a + b, y, leq);
      TiedJoin(a, b, y, leq);
      TiedJoin(a + [x], b, y, leq);
      TiedJoin(a, [x], y, leq);
      if leq(x, y) && leq(y, x) {
        NoneTied(a, y, leq);
      } else {
        NoneTied([x], y, leq);
      }
    }
    SortedIs(a + [x] + b, [x] + rest, leq);
  }

  lemma {:induction false} NoneTied<T>(s: seq<T>, y: T, leq: (T, T) -> bool)
    requires forall e :: e in s ==> !(leq(e, y) && leq(y, e))
    ensures Tied(s, y, leq) == []
  {
    if s != [] {
      NoneTied(s[..|s| - 1], y, leq);
    }
  }
}
