/** Stable sorting by a key, and counting, on sequences of any type. */
module Sorting {

  function InsertStable<T>(s: seq<T>, x: T, key: T -> nat): seq<T> {
    if s == [] || key(s[|s| - 1]) <= key(x) then s + [x]
    else InsertStable(s[..|s| - 1], x, key) + [s[|s| - 1]]
  }

  function StableSort<T>(s: seq<T>, key: T -> nat): seq<T> {
    if s == [] then [] else InsertStable(StableSort(s[..|s| - 1], key), s[|s| - 1], key)
  }

  ghost predicate Sorted<T>(s: seq<T>, key: T -> nat) {
    forall i, k :: 0 <= i < k < |s| ==> key(s[i]) <= key(s[k])
  }

  function Filter<T>(s: seq<T>, p: T -> bool): seq<T> {
    if s == [] then []
    else Filter(s[..|s| - 1], p) + if p(s[|s| - 1]) then [s[|s| - 1]] else []
  }

  function Count<T>(s: seq<T>, p: T -> bool): nat {
    if s == [] then 0 else Count(s[..|s| - 1], p) + if p(s[|s| - 1]) then 1 else 0
  }

  lemma FilterSnoc<T>(s: seq<T>, x: T, p: T -> bool)
    ensures Filter(s + [x], p) == Filter(s, p) + if p(x) then [x] else []
  {
    assert (s + [x])[..|s|] == s;
  }

  lemma CountSnoc<T>(s: seq<T>, x: T, p: T -> bool)
    ensures Count(s + [x], p) == Count(s, p) + if p(x) then 1 else 0
  {
    assert (s + [x])[..|s|] == s;
  }

  lemma {:induction false} CountUpdate<T>(s: seq<T>, k: nat, x: T, p: T -> bool)
    requires k < |s|
    ensures Count(s[k := x], p) == Count(s, p) - (if p(s[k]) then 1 else 0) + if p(x) then 1 else 0
  {
    var last := |s| - 1;
    if k < last {
      CountUpdate(s[..last], k, x, p);
      assert s[k := x][..last] == s[..last][k := x];
    } else {
      assert s[k := x][..last] == s[..last];
    }
  }

  /** Where two properties split a third one, so do the counts. */
  lemma {:induction false} CountSplit<T>(s: seq<T>, p: T -> bool, q: T -> bool, r: T -> bool)
    requires forall i :: 0 <= i < |s| ==> (r(s[i]) <==> p(s[i]) || q(s[i])) && !(p(s[i]) && q(s[i]))
    ensures Count(s, r) == Count(s, p) + Count(s, q)
  {
    if s != [] {
      var init := s[..|s| - 1];
      assert forall i :: 0 <= i < |init| ==> init[i] == s[i];
      CountSplit(init, p, q, r);
    }
  }

  lemma {:induction false} CountAll<T>(s: seq<T>, p: T -> bool)
    requires forall i :: 0 <= i < |s| ==> p(s[i])
    ensures Count(s, p) == |s|
  {
    if s != [] {
      var init := s[..|s| - 1];
      assert forall i :: 0 <= i < |init| ==> init[i] == s[i];
      CountAll(init, p);
    }
  }

  lemma {:induction false} CountNone<T>(s: seq<T>, p: T -> bool)
    requires forall i :: 0 <= i < |s| ==> !p(s[i])
    ensures Count(s, p) == 0
  {
    if s != [] {
      var init := s[..|s| - 1];
      assert forall i :: 0 <= i < |init| ==> init[i] == s[i];
      CountNone(init, p);
    }
  }

  lemma {:induction false} CountConcat<T>(a: seq<T>, b: seq<T>, p: T -> bool)
    ensures Count(a + b, p) == Count(a, p) + Count(b, p)
  {
    if b == [] {
      assert a + b == a;
    } else {
      CountConcat(a, b[..|b| - 1], p);
      assert (a + b)[..|a + b| - 1] == a + b[..|b| - 1];
    }
  }

  ghost predicate Bounded<T>(s: seq<T>, key: T -> nat, bound: nat) {
    forall i :: 0 <= i < |s| ==> key(s[i]) <= bound
  }

  lemma SnocBounded<T>(s: seq<T>, x: T, key: T -> nat, bound: nat)
    requires Bounded(s, key, bound) && key(x) <= bound
    ensures Bounded(s + [x], key, bound)
  {
    forall i | 0 <= i < |s| + 1 ensures key((s + [x])[i]) <= bound {
      assert i < |s| ==> (s + [x])[i] == s[i];
    }
  }

  lemma SnocSorted<T>(s: seq<T>, x: T, key: T -> nat)
    requires Sorted(s, key) && Bounded(s, key, key(x))
    ensures Sorted(s + [x], key)
  {
    forall i, k | 0 <= i < k < |s| + 1 ensures key((s + [x])[i]) <= key((s + [x])[k]) {
      assert (s + [x])[i] == s[i];
      assert k < |s| ==> (s + [x])[k] == s[k];
    }
  }

  lemma {:induction false} InsertBounded<T>(s: seq<T>, x: T, key: T -> nat, bound: nat)
    requires Bounded(s, key, bound) && key(x) <= bound
    ensures Bounded(InsertStable(s, x, key), key, bound)
  {
    if s != [] && key(s[|s| - 1]) > key(x) {
      var init := s[..|s| - 1];
      assert forall i :: 0 <= i < |init| ==> init[i] == s[i];
      InsertBounded(init, x, key, bound);
      SnocBounded(InsertStable(init, x, key), s[|s| - 1], key, bound);
    } else {
      SnocBounded(s, x, key, bound);
    }
  }

  lemma {:induction false} InsertSorts<T>(s: seq<T>, x: T, key: T -> nat)
    requires Sorted(s, key)
    ensures Sorted(InsertStable(s, x, key), key)
  {
    if s != [] && key(s[|s| - 1]) > key(x) {
      var init, last := s[..|s| - 1], s[|s| - 1];
      assert forall i :: 0 <= i < |init| ==> init[i] == s[i];
      assert Bounded(init, key, key(last));
      InsertSorts(init, x, key);
      InsertBounded(init, x, key, key(last));
      SnocSorted(InsertStable(init, x, key), last, key);
    } else {
      assert s != [] ==> forall i :: 0 <= i < |s| ==> key(s[i]) <= key(s[|s| - 1]);
      SnocSorted(s, x, key);
    }
  }

  lemma {:induction false} InsertPermutes<T>(s: seq<T>, x: T, key: T -> nat)
    ensures multiset(InsertStable(s, x, key)) == multiset(s + [x])
  {
    if s != [] && key(s[|s| - 1]) > key(x) {
      InsertPermutes(s[..|s| - 1], x, key);
      assert s == s[..|s| - 1] + [s[|s| - 1]];
    }
  }

  lemma {:induction false} InsertCounts<T>(s: seq<T>, x: T, key: T -> nat, p: T -> bool)
    ensures Count(InsertStable(s, x, key), p) == Count(s, p) + if p(x) then 1 else 0
  {
    if s != [] && key(s[|s| - 1]) > key(x) {
      InsertCounts(s[..|s| - 1], x, key, p);
      CountSnoc(InsertStable(s[..|s| - 1], x, key), s[|s| - 1], p);
    } else {
      CountSnoc(s, x, p);
    }
  }

  /** Among elements of one key the inserted one comes last. */
  lemma {:induction false} InsertKeepsOrder<T>(s: seq<T>, x: T, key: T -> nat, p: T -> bool)
    requires forall y, z :: p(y) && p(z) ==> key(y) == key(z)
    ensures Filter(InsertStable(s, x, key), p) == Filter(s, p) + if p(x) then [x] else []
  {
    if s != [] && key(s[|s| - 1]) > key(x) {
      InsertKeepsOrder(s[..|s| - 1], x, key, p);
      FilterSnoc(InsertStable(s[..|s| - 1], x, key), s[|s| - 1], p);
    } else {
      FilterSnoc(s, x, p);
    }
  }

  /** The sort is a permutation into order. */
  lemma {:induction false} SortMeaning<T>(s: seq<T>, key: T -> nat)
    ensures Sorted(StableSort(s, key), key) && multiset(StableSort(s, key)) == multiset(s)
  {
    if s != [] {
      var init := s[..|s| - 1];
      SortMeaning(init, key);
      InsertSorts(StableSort(init, key), s[|s| - 1], key);
      InsertPermutes(StableSort(init, key), s[|s| - 1], key);
      assert s == init + [s[|s| - 1]];
    }
  }

  /** Elements of one key keep their order. */
  lemma {:induction false} SortIsStable<T>(s: seq<T>, key: T -> nat, p: T -> bool)
    requires forall y, z :: p(y) && p(z) ==> key(y) == key(z)
    ensures Filter(StableSort(s, key), p) == Filter(s, p)
  {
    if s != [] {
      SortIsStable(s[..|s| - 1], key, p);
      InsertKeepsOrder(StableSort(s[..|s| - 1], key), s[|s| - 1], key, p);
    }
  }

  lemma {:induction false} SortCounts<T>(s: seq<T>, key: T -> nat, p: T -> bool)
    ensures Count(StableSort(s, key), p) == Count(s, p)
  {
    if s != [] {
      SortCounts(s[..|s| - 1], key, p);
      InsertCounts(StableSort(s[..|s| - 1], key), s[|s| - 1], key, p);
    }
  }
}
