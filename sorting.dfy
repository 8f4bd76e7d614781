/** The stable sort the source obtains from `Array.prototype.sort` with a
    comparator. The element `a` goes before `b` exactly when the comparator
    returns a negative number; `less(a, b)` stands for that test. Every stable
    sort with a consistent comparator yields the same sequence, so an
    insertion sort serves as the reference definition. */
module Sorting {

  /** `less` is a consistent comparator: irreflexive, transitive, and its
      "neither goes first" relation is transitive too. */
  ghost predicate StrictWeakOrder<T(!new)>(less: (T, T) -> bool)
  {
    && (forall a :: !less(a, a))
    && (forall a, b, c :: less(a, b) && less(b, c) ==> less(a, c))
    && (forall a, b, c :: !less(a, b) && !less(b, c) ==> !less(a, c))
  }

  /** No later element goes strictly before an earlier one. */
  ghost predicate Sorted<T>(s: seq<T>, less: (T, T) -> bool)
  {
    forall i, j :: 0 <= i < j < |s| ==> !less(s[j], s[i])
  }

  /** Neither of `a` and `b` goes before the other: they tie. */
  predicate Ties<T>(a: T, b: T, less: (T, T) -> bool)
  {
    !less(a, b) && !less(b, a)
  }

  /** The elements of `s` that tie with `e`, in their order in `s`. */
  function TiesWith<T>(s: seq<T>, e: T, less: (T, T) -> bool): (r: seq<T>)
    ensures |r| <= |s|
  {
    if s == [] then [] else TiesWith(s[..|s| - 1], e, less) + (if Ties(s[|s| - 1], e, less) then [s[|s| - 1]] else [])
  }

  /** Insert `x` after the last element of `s` that does not go after it. */
  function Insert<T>(x: T, s: seq<T>, less: (T, T) -> bool): (r: seq<T>)
    ensures |r| == |s| + 1
  {
    if s == [] then [x]
    else
      var init, last := s[..|s| - 1], s[|s| - 1];
      assert s == init + [last];
      if less(x, last) then Insert(x, init, less) + [last] else s + [x]
  }

  /** Stable insertion sort: each element in turn is inserted into the sorted prefix. */
  function SortBy<T>(s: seq<T>, less: (T, T) -> bool): (r: seq<T>)
    ensures |r| == |s|
  {
    if s == [] then []
    else Insert(s[|s| - 1], SortBy(s[..|s| - 1], less), less)
  }

  /** Inserting adds exactly the one element. */
  lemma {:induction false} InsertPermutes<T>(x: T, s: seq<T>, less: (T, T) -> bool)
    ensures multiset(Insert(x, s, less)) == multiset(s) + multiset{x}
  {
    if s != [] {
      var init, last := s[..|s| - 1], s[|s| - 1];
      assert s == init + [last];
      if less(x, last) {
        InsertPermutes(x, init, less);
      }
    }
  }

  /** The sort is a permutation of its input. */
  lemma {:induction false} SortByPermutes<T>(s: seq<T>, less: (T, T) -> bool)
    ensures multiset(SortBy(s, less)) == multiset(s)
  {
    if s != [] {
      var init, last := s[..|s| - 1], s[|s| - 1];
      assert s == init + [last];
      SortByPermutes(init, less);
      InsertPermutes(last, SortBy(init, less), less);
    }
  }

  lemma TiesWithConcat<T>(a: seq<T>, b: seq<T>, e: T, less: (T, T) -> bool)
    ensures TiesWith(a + b, e, less) == TiesWith(a, e, less) + TiesWith(b, e, less)
    decreases |b|
  {
    if b != [] {
      assert (a + b)[..|a + b| - 1] == a + b[..|b| - 1];
      TiesWithConcat(a, b[..|b| - 1], e, less);
    } else {
      assert a + b == a;
    }
  }

  lemma {:induction false} InsertSorted<T(!new)>(x: T, s: seq<T>, less: (T, T) -> bool)
    requires StrictWeakOrder(less)
    requires Sorted(s, less)
    ensures Sorted(Insert(x, s, less), less)
  {
    if s != [] {
      var last := s[|s| - 1];
      if less(x, last) {
        var init := s[..|s| - 1];
        InsertSorted(x, init, less);
        var ins := Insert(x, init, less);
        InsertPermutes(x, init, less);
        forall y | y in ins
          ensures !less(last, y)
        {
          assert y in multiset(ins);
          if y != x {
            assert y in multiset(init);
            var k :| 0 <= k < |init| && init[k] == y;
            assert s[k] == y;
          }
        }
        var r := ins + [last];
        forall i, j | 0 <= i < j < |r|
          ensures !less(r[j], r[i])
        {
          if j == |r| - 1 {
            assert r[i] in ins;
          }
        }
      } else {
        var r := s + [x];
        forall i, j | 0 <= i < j < |r|
          ensures !less(r[j], r[i])
        {
          if j == |r| - 1 && i < |s| - 1 {
            assert !less(last, s[i]);
          }
        }
      }
    }
  }

  /** The insertion sort's output is sorted. */
  lemma {:induction false} SortBySorted<T(!new)>(s: seq<T>, less: (T, T) -> bool)
    requires StrictWeakOrder(less)
    ensures Sorted(SortBy(s, less), less)
  {
    if s != [] {
      SortBySorted(s[..|s| - 1], less);
      InsertSorted(s[|s| - 1], SortBy(s[..|s| - 1], less), less);
    }
  }

  lemma {:induction false} InsertTies<T(!new)>(x: T, s: seq<T>, e: T, less: (T, T) -> bool)
    requires StrictWeakOrder(less)
    ensures TiesWith(Insert(x, s, less), e, less) == TiesWith(s, e, less) + TiesWith([x], e, less)
  {
    if s == [] {
      assert [] + [x] == [x];
    } else {
      var last := s[|s| - 1];
      var init := s[..|s| - 1];
      assert s == init + [last];
      TiesWithConcat(init, [last], e, less);
      if less(x, last) {
        InsertTies(x, init, e, less);
        TiesWithConcat(Insert(x, init, less), [last], e, less);
        TiesWithConcat(init, [x], e, less);
        if Ties(x, e, less) {
          // `last` goes after `x`, hence after everything tied with `x`.
          assert !Ties(last, e, less);
          assert TiesWith([last], e, less) == [];
        }
      } else {
        TiesWithConcat(s, [x], e, less);
      }
    }
  }

  /** Stability: for every `e`, the elements tied with `e` keep their input order. */
  lemma {:induction false} SortByStable<T(!new)>(s: seq<T>, e: T, less: (T, T) -> bool)
    requires StrictWeakOrder(less)
    ensures TiesWith(SortBy(s, less), e, less) == TiesWith(s, e, less)
  {
    if s != [] {
      var init := s[..|s| - 1];
      var last := s[|s| - 1];
      assert SortBy(s, less) == Insert(last, SortBy(init, less), less);
      calc {
        TiesWith(SortBy(s, less), e, less);
        { InsertTies(last, SortBy(init, less), e, less); }
        TiesWith(SortBy(init, less), e, less) + TiesWith([last], e, less);
        { SortByStable(init, e, less); }
        TiesWith(init, e, less) + TiesWith([last], e, less);
        { TiesWithConcat(init, [last], e, less); assert s == init + [last]; }
        TiesWith(s, e, less);
      }
    }
  }

  /** One step of the in-place insertion sort: the element at `i` moves left
      past the elements of the prefix `a[..i]` that go after it. */
  method InsertInPlace<T>(a: array<T>, i: nat, less: (T, T) -> bool)
    requires i < a.Length
    modifies a
    ensures a[..] == Insert(old(a[i]), old(a[..i]), less) + old(a[i + 1..])
  {
    var x := a[i];
    ghost var t := a[..i];
    ghost var rest := a[i + 1..];
    var j := i;
    assert t[..j] == t && t[j..] == [];
    while j > 0 && less(x, a[j - 1])
      invariant 0 <= j <= i
      invariant a[..] == t[..j] + [a[j]] + t[j..] + rest
      invariant Insert(x, t, less) == Insert(x, t[..j], less) + t[j..]
    {
      ghost var s := a[..];
      ShiftRight(s, t, rest, j);
      InsertShift(x, t, j, less);
      a[j] := a[j - 1];
      j := j - 1;
    }
    ghost var s := a[..];
    InsertStop(x, t, j, less);
    Overwrite(s, t, rest, j, x);
    a[j] := x;
  }

  lemma ShiftRight<T>(s: seq<T>, t: seq<T>, rest: seq<T>, j: nat)
    requires 0 < j <= |t|
    requires j < |s| && s == t[..j] + [s[j]] + t[j..] + rest
    ensures s[j - 1] == t[j - 1]
    ensures s[j := s[j - 1]] == t[..j - 1] + [s[j - 1]] + t[j - 1..] + rest
  {
    assert t[..j] == t[..j - 1] + [t[j - 1]];
    assert t[j - 1..] == [t[j - 1]] + t[j..];
  }

  lemma Overwrite<T>(s: seq<T>, t: seq<T>, rest: seq<T>, j: nat, x: T)
    requires j <= |t|
    requires j < |s| && s == t[..j] + [s[j]] + t[j..] + rest
    ensures s[j := x] == t[..j] + [x] + t[j..] + rest
  {
  }

  lemma InsertShift<T>(x: T, t: seq<T>, j: nat, less: (T, T) -> bool)
    requires 0 < j <= |t| && less(x, t[j - 1])
    ensures Insert(x, t[..j], less) + t[j..] == Insert(x, t[..j - 1], less) + t[j - 1..]
  {
    assert t[..j][..j - 1] == t[..j - 1];
    assert t[j - 1..] == [t[j - 1]] + t[j..];
  }

  lemma InsertStop<T>(x: T, t: seq<T>, j: nat, less: (T, T) -> bool)
    requires j <= |t| && (j == 0 || !less(x, t[j - 1]))
    ensures Insert(x, t[..j], less) == t[..j] + [x]
  {
  }

  /** Sorting the array in place by insertion: the array ends up holding
      `SortBy` of its initial contents. */
  method SortInPlace<T>(a: array<T>, less: (T, T) -> bool)
    modifies a
    ensures a[..] == SortBy(old(a[..]), less)
  {
    ghost var initial := a[..];
    var i := 0;
    while i < a.Length
      invariant 0 <= i <= a.Length
      invariant a[..] == SortBy(initial[..i], less) + initial[i..]
    {
      SortStepInPlace(a, i, less, initial);
      i := i + 1;
    }
    assert initial[a.Length..] == [];
    assert initial[..a.Length] == initial;
  }

  /** One outer step on the array: the sorted prefix grows by one element. */
  method SortStepInPlace<T>(a: array<T>, i: nat, less: (T, T) -> bool, ghost initial: seq<T>)
    requires i < a.Length && |initial| == a.Length
    requires a[..] == SortBy(initial[..i], less) + initial[i..]
    modifies a
    ensures a[..] == SortBy(initial[..i + 1], less) + initial[i + 1..]
  {
    ghost var before := a[..];
    InsertInPlace(a, i, less);
    SortStep(initial, i, less, before, a[..]);
  }

  /** One outer step: inserting the first unsorted element into the sorted
      prefix extends the sorted prefix by one. */
  lemma SortStep<T>(initial: seq<T>, i: nat, less: (T, T) -> bool, before: seq<T>, after: seq<T>)
    requires i < |initial|
    requires before == SortBy(initial[..i], less) + initial[i..]
    requires after == Insert(before[i], before[..i], less) + before[i + 1..]
    ensures after == SortBy(initial[..i + 1], less) + initial[i + 1..]
  {
    var sorted := SortBy(initial[..i], less);
    assert |sorted| == i;
    assert before[..i] == sorted;
    assert before[i] == initial[i];
    assert before[i + 1..] == initial[i + 1..];
    assert initial[..i + 1][..i] == initial[..i];
  }
}
