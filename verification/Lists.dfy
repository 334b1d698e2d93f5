/** Lists: sums, filters, and stable sorting by a key of two integers compared in turn. */
module Lists {

  type Key = (int, int)

  predicate KeyLe(a: Key, b: Key) { a.0 < b.0 || (a.0 == b.0 && a.1 <= b.1) }

  function Filter<T>(s: seq<T>, keep: T -> bool): (r: seq<T>)
    ensures forall i :: 0 <= i < |r| ==> keep(r[i]) && r[i] in s
    ensures forall x :: x in s && keep(x) ==> x in r
  {
    if s == [] then []
    else Filter(s[..|s| - 1], keep) + if keep(s[|s| - 1]) then [s[|s| - 1]] else []
  }

  lemma FilterSplit<T>(front: seq<T>, last: T, keep: T -> bool)
    ensures Filter(front + [last], keep) == if keep(last) then Filter(front, keep) + [last] else Filter(front, keep)
  {
    assert (front + [last])[..|front|] == front;
  }

  lemma FilterMembers<T>(s: seq<T>, keep: T -> bool, x: T)
    ensures x in Filter(s, keep) <==> x in s && keep(x)
  {
    if x in Filter(s, keep) {
      var i :| 0 <= i < |Filter(s, keep)| && Filter(s, keep)[i] == x;
    }
  }

  function Iterate<T>(f: T -> T, x: T, n: nat): T { if n == 0 then x else f(Iterate(f, x, n - 1)) }

  lemma {:induction false} RunsKeep<T(!new)>(f: T -> T, inv: T -> bool, x: T, n: nat)
    requires inv(x) && forall t :: inv(t) ==> inv(f(t))
    ensures inv(Iterate(f, x, n))
  {
    if n > 0 {
      RunsKeep(f, inv, x, n - 1);
    }
  }

  /** Two runs whose every step keeps a relation stay related. */
  lemma {:induction false} RunsStayRelated<S(!new), T(!new)>(f: S -> S, g: T -> T, related: (S, T) -> bool, x: S, y: T, n: nat)
    requires related(x, y)
    requires forall s, t :: related(s, t) ==> related(f(s), g(t))
    ensures related(Iterate(f, x, n), Iterate(g, y, n))
  {
    if n > 0 {
      RunsStayRelated(f, g, related, x, y, n - 1);
    }
  }

  /** The place of the first element with a property, or the length of the list. */
  function First<T>(s: seq<T>, p: T -> bool): (i: nat)
    ensures i <= |s|
    ensures i < |s| ==> p(s[i])
    ensures forall j :: 0 <= j < i ==> !p(s[j])
  {
    if s == [] || p(s[0]) then 0 else First(s[1..], p) + 1
  }

  lemma FirstFound<T>(s: seq<T>, p: T -> bool)
    ensures First(s, p) < |s| <==> exists x :: x in s && p(x)
  {
  }

  lemma {:induction false} FirstGrows<T>(s: seq<T>, x: T, p: T -> bool)
    ensures First(s + [x], p) == if First(s, p) < |s| || p(x) then First(s, p) else |s| + 1
  {
    if s != [] {
      FirstGrows(s[1..], x, p);
      assert (s + [x])[1..] == s[1..] + [x];
    }
  }

  lemma {:induction false} FirstIsFiltered<T>(s: seq<T>, keep: T -> bool)
    requires First(s, keep) < |s|
    ensures Filter(s, keep) != [] && Filter(s, keep)[0] == s[First(s, keep)]
  {
    var front, last := s[..|s| - 1], s[|s| - 1];
    assert s == front + [last];
    FirstGrows(front, last, keep);
    FilterSplit(front, last, keep);
    if First(front, keep) < |front| {
      FirstIsFiltered(front, keep);
    } else {
      NothingFiltered(front, keep);
    }
  }

  lemma NothingFiltered<T>(s: seq<T>, keep: T -> bool)
    requires First(s, keep) == |s|
    ensures Filter(s, keep) == []
  {
    FirstFound(s, keep);
    if Filter(s, keep) != [] {
      FilterMembers(s, keep, Filter(s, keep)[0]);
    }
  }

  lemma {:induction false} FilterAppend<T>(a: seq<T>, b: seq<T>, keep: T -> bool)
    ensures Filter(a + b, keep) == Filter(a, keep) + Filter(b, keep)
  {
    if b == [] {
      assert a + b == a;
    } else {
      var front, last := b[..|b| - 1], b[|b| - 1];
      assert b == front + [last] && a + b == (a + front) + [last];
      FilterAppend(a, front, keep);
      FilterSplit(a + front, last, keep);
      FilterSplit(front, last, keep);
    }
  }

  lemma {:induction false} FilterAgrees<T>(s: seq<T>, keep: T -> bool, same: T -> bool)
    requires forall x :: x in s ==> keep(x) == same(x)
    ensures Filter(s, keep) == Filter(s, same)
  {
    if s != [] {
      assert s[|s| - 1] in s;
      FilterAgrees(s[..|s| - 1], keep, same);
    }
  }

  lemma {:induction false} FilterAll<T>(s: seq<T>, keep: T -> bool)
    requires forall x :: x in s ==> keep(x)
    ensures Filter(s, keep) == s
  {
    if s != [] {
      var front, last := s[..|s| - 1], s[|s| - 1];
      assert s == front + [last] && last in s;
      FilterAll(front, keep);
      FilterSplit(front, last, keep);
    }
  }

  lemma {:induction false} FilterTwice<T>(s: seq<T>, first: T -> bool, second: T -> bool, both: T -> bool)
    requires forall x :: x in s ==> both(x) == (first(x) && second(x))
    ensures Filter(Filter(s, first), second) == Filter(s, both)
  {
    if s != [] {
      var front, last := s[..|s| - 1], s[|s| - 1];
      assert s == front + [last] && last in s;
      FilterTwice(front, first, second, both);
      FilterSplit(front, last, first);
      FilterSplit(front, last, both);
      FilterSplit(Filter(front, first), last, second);
    }
  }

  function SumBy<T>(s: seq<T>, amount: T -> int): int {
    if s == [] then 0 else SumBy(s[..|s| - 1], amount) + amount(s[|s| - 1])
  }

  lemma {:induction false} SumAgrees<T>(s: seq<T>, f: T -> int, g: T -> int)
    requires forall t :: t in s ==> f(t) == g(t)
    ensures SumBy(s, f) == SumBy(s, g)
  {
    if s != [] {
      assert s == s[..|s| - 1] + [s[|s| - 1]];
      SumAgrees(s[..|s| - 1], f, g);
    }
  }

  lemma SumEnd<T>(front: seq<T>, last: T, amount: T -> int)
    ensures SumBy(front + [last], amount) == SumBy(front, amount) + amount(last)
  {
    assert (front + [last])[..|front|] == front;
  }

  lemma {:induction false} SumAppend<T>(a: seq<T>, b: seq<T>, amount: T -> int)
    ensures SumBy(a + b, amount) == SumBy(a, amount) + SumBy(b, amount)
  {
    if b == [] {
      assert a + b == a;
    } else {
      SumAppend(a, b[..|b| - 1], amount);
      assert (a + b)[..|a + b| - 1] == a + b[..|b| - 1];
    }
  }

  /** Puts an element after everything not greater than it. */
  function Place<T>(sorted: seq<T>, x: T, key: T -> Key): (r: seq<T>)
    ensures multiset(r) == multiset(sorted) + multiset{x}
    ensures |r| == |sorted| + 1
  {
    if sorted == [] then [x]
    else if KeyLe(key(sorted[|sorted| - 1]), key(x)) then sorted + [x]
    else
      assert sorted == sorted[..|sorted| - 1] + [sorted[|sorted| - 1]];
      Place(sorted[..|sorted| - 1], x, key) + [sorted[|sorted| - 1]]
  }

  function Sort<T>(s: seq<T>, key: T -> Key): (r: seq<T>)
    ensures multiset(r) == multiset(s)
    ensures |r| == |s|
  {
    if s == [] then []
    else
      assert s == s[..|s| - 1] + [s[|s| - 1]];
      Place(Sort(s[..|s| - 1], key), s[|s| - 1], key)
  }

  predicate Sorted<T>(s: seq<T>, key: T -> Key) {
    forall i, j :: 0 <= i < j < |s| ==> KeyLe(key(s[i]), key(s[j]))
  }

  lemma {:induction false} PlaceSorts<T>(sorted: seq<T>, x: T, key: T -> Key)
    requires Sorted(sorted, key)
    ensures Sorted(Place(sorted, x, key), key)
  {
    if sorted != [] && !KeyLe(key(sorted[|sorted| - 1]), key(x)) {
      var last := sorted[|sorted| - 1];
      var front := sorted[..|sorted| - 1];
      PlaceSorts(front, x, key);
      var placed := Place(front, x, key);
      forall i | 0 <= i < |placed| ensures KeyLe(key(placed[i]), key(last)) {
        assert placed[i] in multiset(placed);
        assert placed[i] == x || placed[i] in front;
      }
    }
  }

  lemma {:induction false} SortSorts<T>(s: seq<T>, key: T -> Key)
    ensures Sorted(Sort(s, key), key)
  {
    if s != [] {
      SortSorts(s[..|s| - 1], key);
      PlaceSorts(Sort(s[..|s| - 1], key), s[|s| - 1], key);
    }
  }

  lemma {:induction false} SortedStays<T>(s: seq<T>, key: T -> Key)
    requires Sorted(s, key)
    ensures Sort(s, key) == s
  {
    if s != [] {
      SortedStays(s[..|s| - 1], key);
      if |s| > 1 {
        assert KeyLe(key(s[|s| - 2]), key(s[|s| - 1]));
      }
    }
  }

  lemma SortMembers<T>(s: seq<T>, key: T -> Key, x: T)
    ensures x in Sort(s, key) <==> x in s
  {
    assert x in multiset(Sort(s, key)) <==> x in multiset(s);
  }

  lemma {:induction false} PlaceSum<T>(sorted: seq<T>, x: T, key: T -> Key, amount: T -> int)
    ensures SumBy(Place(sorted, x, key), amount) == SumBy(sorted, amount) + amount(x)
  {
    if sorted != [] && !KeyLe(key(sorted[|sorted| - 1]), key(x)) {
      PlaceSum(sorted[..|sorted| - 1], x, key, amount);
      SumEnd(Place(sorted[..|sorted| - 1], x, key), sorted[|sorted| - 1], amount);
    } else {
      SumEnd(sorted, x, amount);
    }
  }

  lemma {:induction false} SortSum<T>(s: seq<T>, key: T -> Key, amount: T -> int)
    ensures SumBy(Sort(s, key), amount) == SumBy(s, amount)
  {
    if s != [] {
      SortSum(s[..|s| - 1], key, amount);
      PlaceSum(Sort(s[..|s| - 1], key), s[|s| - 1], key, amount);
    }
  }

  // Filtering and sorting commute.

  lemma PlaceAtEnd<T>(sorted: seq<T>, x: T, key: T -> Key)
    requires forall y :: y in sorted ==> KeyLe(key(y), key(x))
    ensures Place(sorted, x, key) == sorted + [x]
  {
  }

  lemma PlaceBeforeLast<T>(front: seq<T>, last: T, x: T, key: T -> Key)
    requires !KeyLe(key(last), key(x))
    ensures Place(front + [last], x, key) == Place(front, x, key) + [last]
  {
    assert (front + [last])[..|front|] == front;
  }

  lemma PlaceFilterLast<T>(sorted: seq<T>, x: T, key: T -> Key, keep: T -> bool)
    requires forall y :: y in sorted ==> KeyLe(key(y), key(x))
    ensures Filter(sorted + [x], keep)
         == if keep(x) then Place(Filter(sorted, keep), x, key) else Filter(sorted, keep)
  {
    FilterSplit(sorted, x, keep);
    forall y | y in Filter(sorted, keep) ensures KeyLe(key(y), key(x)) {
      FilterMembers(sorted, keep, y);
    }
    PlaceAtEnd(Filter(sorted, keep), x, key);
  }

  lemma SortedMembers<T>(sorted: seq<T>, key: T -> Key, y: T)
    requires Sorted(sorted, key) && y in sorted
    ensures KeyLe(key(y), key(sorted[|sorted| - 1]))
  {
  }

  lemma {:induction false} PlaceFilter<T>(sorted: seq<T>, x: T, key: T -> Key, keep: T -> bool)
    requires Sorted(sorted, key)
    ensures Filter(Place(sorted, x, key), keep)
         == if keep(x) then Place(Filter(sorted, keep), x, key) else Filter(sorted, keep)
  {
    if sorted == [] {
      FilterSplit([], x, keep);
      assert [] + [x] == [x];
    } else {
      var front, last := sorted[..|sorted| - 1], sorted[|sorted| - 1];
      if KeyLe(key(last), key(x)) {
        forall y | y in sorted ensures KeyLe(key(y), key(x)) {
          SortedMembers(sorted, key, y);
        }
        PlaceFilterLast(sorted, x, key, keep);
      } else {
        assert sorted == front + [last];
        PlaceFilter(front, x, key, keep);
        FilterSplit(front, last, keep);
        FilterSplit(Place(front, x, key), last, keep);
        PlaceBeforeLast(Filter(front, keep), last, x, key);
      }
    }
  }

  /** What is kept is ordered among itself as it is in the whole. */
  lemma {:induction false} SortFilter<T>(s: seq<T>, key: T -> Key, keep: T -> bool)
    ensures Filter(Sort(s, key), keep) == Sort(Filter(s, keep), key)
  {
    if s != [] {
      var front, last := s[..|s| - 1], s[|s| - 1];
      assert s == front + [last];
      SortFilter(front, key, keep);
      SortSorts(front, key);
      PlaceFilter(Sort(front, key), last, key, keep);
      FilterSplit(front, last, keep);
      if keep(last) {
        assert (Filter(front, keep) + [last])[..|Filter(front, keep)|] == Filter(front, keep);
      }
    }
  }

  // The order of single elements.

  /** One element stands somewhere before another. */
  predicate InThatOrder<T(==)>(s: seq<T>, x: T, y: T) {
    exists a, b :: 0 <= a < b < |s| && s[a] == x && s[b] == y
  }

  lemma OrderGrows<T>(s: seq<T>, last: T, x: T, y: T)
    requires InThatOrder(s, x, y) || (x in s && y == last)
    ensures InThatOrder(s + [last], x, y)
  {
    if InThatOrder(s, x, y) {
      var a, b :| 0 <= a < b < |s| && s[a] == x && s[b] == y;
      assert (s + [last])[a] == x && (s + [last])[b] == y;
    } else {
      var a :| 0 <= a < |s| && s[a] == x;
      assert (s + [last])[a] == x && (s + [last])[|s|] == y;
    }
  }

  /** Filtering keeps the order. */
  lemma {:induction false} FilterInOrder<T>(s: seq<T>, keep: T -> bool, q: nat, p: nat)
    requires q < p < |s| && keep(s[q]) && keep(s[p])
    ensures InThatOrder(Filter(s, keep), s[q], s[p])
  {
    var front, last := s[..|s| - 1], s[|s| - 1];
    assert front[q] == s[q] && s == front + [last];
    FilterSplit(front, last, keep);
    if p < |front| {
      assert front[p] == s[p];
      FilterInOrder(front, keep, q, p);
    } else {
      FilterMembers(front, keep, s[q]);
    }
    if keep(last) { OrderGrows(Filter(front, keep), last, s[q], s[p]); }
  }

  lemma {:induction false} PlaceInOrder<T>(sorted: seq<T>, x: T, key: T -> Key, y: T, z: T)
    requires InThatOrder(sorted, y, z)
    ensures InThatOrder(Place(sorted, x, key), y, z)
  {
    var front, last := sorted[..|sorted| - 1], sorted[|sorted| - 1];
    if KeyLe(key(last), key(x)) {
      OrderGrows(sorted, x, y, z);
    } else {
      var a, b :| 0 <= a < b < |sorted| && sorted[a] == y && sorted[b] == z;
      if b < |front| {
        assert front[a] == y && front[b] == z;
        PlaceInOrder(front, x, key, y, z);
      } else {
        assert front[a] == y;
        assert y in multiset(Place(front, x, key));
      }
      OrderGrows(Place(front, x, key), last, y, z);
    }
  }

  lemma {:induction false} PlaceApart<T>(sorted: seq<T>, x: T, key: T -> Key, y: T)
    requires Sorted(sorted, key) && y in sorted
    ensures if KeyLe(key(y), key(x)) then InThatOrder(Place(sorted, x, key), y, x)
            else InThatOrder(Place(sorted, x, key), x, y)
  {
    var front, last := sorted[..|sorted| - 1], sorted[|sorted| - 1];
    if KeyLe(key(last), key(x)) {
      SortedMembers(sorted, key, y);
      OrderGrows(sorted, x, y, x);
    } else if y in front {
      PlaceApart(front, x, key, y);
      OrderGrows(Place(front, x, key), last, if KeyLe(key(y), key(x)) then y else x, if KeyLe(key(y), key(x)) then x else y);
    } else {
      assert sorted == front + [last] && y == last;
      assert x in multiset(Place(front, x, key));
      OrderGrows(Place(front, x, key), last, x, y);
    }
  }

  lemma LastInOrder<T>(s: seq<T>, key: T -> Key, i: nat)
    requires i + 1 < |s|
    ensures var last := s[|s| - 1];
            if KeyLe(key(s[i]), key(last)) then InThatOrder(Sort(s, key), s[i], last)
            else InThatOrder(Sort(s, key), last, s[i])
  {
    var front, last := s[..|s| - 1], s[|s| - 1];
    SortSorts(front, key);
    assert front[i] == s[i];
    SortMembers(front, key, s[i]);
    PlaceApart(Sort(front, key), last, key, s[i]);
  }

  /** Sorting puts one element before another that has a greater key, or the same and came later. */
  lemma {:induction false} SortInOrder<T>(s: seq<T>, key: T -> Key, q: nat, p: nat)
    requires q < |s| && p < |s|
    requires (q < p && KeyLe(key(s[q]), key(s[p]))) || !KeyLe(key(s[p]), key(s[q]))
    ensures InThatOrder(Sort(s, key), s[q], s[p])
  {
    if q + 1 < |s| && p + 1 < |s| {
      var front := s[..|s| - 1];
      assert front[q] == s[q] && front[p] == s[p];
      SortInOrder(front, key, q, p);
      PlaceInOrder(Sort(front, key), s[|s| - 1], key, s[q], s[p]);
    } else if q + 1 < |s| {
      LastInOrder(s, key, q);
    } else {
      LastInOrder(s, key, p);
    }
  }

  /** The sort is stable: what has one key keeps its order. */
  lemma SortIsStable<T>(s: seq<T>, key: T -> Key, k: Key)
    ensures Filter(Sort(s, key), (x: T) => key(x) == k) == Filter(s, (x: T) => key(x) == k)
  {
    var same := (x: T) => key(x) == k;
    SortFilter(s, key, same);
    SortedStays(Filter(s, same), key);
  }
}
