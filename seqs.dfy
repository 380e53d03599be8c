/** The two array operations of the collection transformer, as functions on
    sequences: `filter`, and a stable `sort` by a comparator. */
module Seqs {

  /** `s.filter(p)`: the elements satisfying `p`, in their original order. */
  function Filter<T>(s: seq<T>, p: T -> bool): (r: seq<T>)
    ensures |r| <= |s|
    ensures forall i :: 0 <= i < |r| ==> p(r[i])
  {
    if s == [] then []
    else
      var rest := Filter(s[1..], p);
      if p(s[0]) then [s[0]] + rest else rest
  }

  /** Filtering never adds an element, nor repeats one more often. */
  lemma {:induction false} FilterSubMultiset<T>(s: seq<T>, p: T -> bool)
    ensures multiset(Filter(s, p)) <= multiset(s)
  {
    if s != [] {
      FilterSubMultiset(s[1..], p);
      assert s == [s[0]] + s[1..];
    }
  }

  /** Filtering keeps exactly the elements satisfying the predicate. */
  lemma {:induction false} FilterMember<T>(s: seq<T>, p: T -> bool, x: T)
    ensures x in Filter(s, p) <==> x in s && p(x)
  {
    if s != [] {
      FilterMember(s[1..], p, x);
      assert s == [s[0]] + s[1..];
    }
  }

  /** A filter whose predicate holds everywhere keeps the sequence as it is. */
  lemma {:induction false} FilterAll<T>(s: seq<T>, p: T -> bool)
    requires forall x :: x in s ==> p(x)
    ensures Filter(s, p) == s
  {
    if s != [] {
      FilterAll(s[1..], p);
      assert s == [s[0]] + s[1..];
    }
  }

  /** Filtering a concatenation filters each part. */
  lemma {:induction false} FilterAppend<T>(a: seq<T>, b: seq<T>, p: T -> bool)
    ensures Filter(a + b, p) == Filter(a, p) + Filter(b, p)
  {
    if a != [] {
      assert (a + b)[0] == a[0] && (a + b)[1..] == a[1..] + b;
      FilterAppend(a[1..], b, p);
    } else {
      assert a + b == b;
    }
  }

  /** A filter whose predicate holds nowhere keeps nothing. */
  lemma {:induction false} FilterNone<T>(s: seq<T>, p: T -> bool)
    requires forall x :: x in s ==> !p(x)
    ensures Filter(s, p) == []
  {
    if s != [] {
      assert forall x :: x in s[1..] ==> x in s;
      FilterNone(s[1..], p);
    }
  }

  /** Filters by predicates that agree on the sequence keep the same elements. */
  lemma {:induction false} FilterSame<T>(s: seq<T>, p: T -> bool, q: T -> bool)
    requires forall x :: x in s ==> p(x) == q(x)
    ensures Filter(s, p) == Filter(s, q)
  {
    if s != [] {
      assert forall x :: x in s[1..] ==> x in s;
      FilterSame(s[1..], p, q);
    }
  }

  /** Filtering a single element. */
  lemma FilterOne<T>(x: T, p: T -> bool)
    ensures Filter([x], p) == if p(x) then [x] else []
  {
    assert [x][1..] == [];
  }

  /** Filtering three elements of which only the middle one is kept. */
  lemma FilterSecondOfThree<T>(x: T, y: T, z: T, p: T -> bool)
    requires !p(x) && p(y) && !p(z)
    ensures Filter([x, y, z], p) == [y]
  {
    assert [z][1..] == [];
    assert Filter([z], p) == [];
    assert [y, z][1..] == [z];
    assert Filter([y, z], p) == [y];
    assert [x, y, z][1..] == [y, z];
  }

  /** Filtering three elements of which only the last one is kept. */
  lemma FilterThirdOfThree<T>(x: T, y: T, z: T, p: T -> bool)
    requires !p(x) && !p(y) && p(z)
    ensures Filter([x, y, z], p) == [z]
  {
    assert [z][1..] == [];
    assert Filter([z], p) == [z];
    assert [y, z][1..] == [z];
    assert Filter([y, z], p) == [z];
    assert [x, y, z][1..] == [y, z];
  }

  // ---------------------------------------------------------------------------
  // Sorting. ECMAScript requires `Array.prototype.sort` to be stable, so for a
  // comparator that is a consistent total preorder its result is determined:
  // it is the result of the stable insertion sort below.

  ghost predicate Total<T(!new)>(le: (T, T) -> bool) {
    forall a, b :: le(a, b) || le(b, a)
  }

  ghost predicate Transitive<T(!new)>(le: (T, T) -> bool) {
    forall a, b, c :: le(a, b) && le(b, c) ==> le(a, c)
  }

  predicate SortedBy<T>(s: seq<T>, le: (T, T) -> bool) {
    forall i, j :: 0 <= i < j < |s| ==> le(s[i], s[j])
  }

  /** Inserts `x` behind every element of `s` that is not greater than it. */
  function Insert<T>(x: T, s: seq<T>, le: (T, T) -> bool): (r: seq<T>)
    ensures multiset(r) == multiset(s) + multiset{x}
  {
    if s == [] then [x]
    else if le(s[|s| - 1], x) then s + [x]
    else
      assert s == s[..|s| - 1] + [s[|s| - 1]];
      Insert(x, s[..|s| - 1], le) + [s[|s| - 1]]
  }

  /** Stable sort: elements are inserted in input order, each one behind the
      elements equal to it that came earlier. */
  function StableSort<T>(s: seq<T>, le: (T, T) -> bool): (r: seq<T>)
    ensures multiset(r) == multiset(s)
  {
    if s == [] then []
    else
      assert s == s[..|s| - 1] + [s[|s| - 1]];
      Insert(s[|s| - 1], StableSort(s[..|s| - 1], le), le)
  }

  lemma {:induction false} InsertKeepsSorted<T(!new)>(x: T, s: seq<T>, le: (T, T) -> bool)
    requires Total(le) && Transitive(le)
    requires SortedBy(s, le)
    ensures SortedBy(Insert(x, s, le), le)
  {
    if s != [] {
      var init, last := s[..|s| - 1], s[|s| - 1];
      if le(last, x) {
        var r := s + [x];
        forall i, j | 0 <= i < j < |r| ensures le(r[i], r[j]) {
          if j == |s| && i < |s| - 1 {
            assert le(s[i], last);
          }
        }
      } else {
        assert le(x, last);
        InsertKeepsSorted(x, init, le);
        var front := Insert(x, init, le);
        var r := front + [last];
        forall i, j | 0 <= i < j < |r| ensures le(r[i], r[j]) {
          if j == |front| {
            assert r[i] in multiset(front);
            assert r[i] in init || r[i] == x;
            if r[i] in init {
              var k :| 0 <= k < |init| && init[k] == r[i];
              assert s[k] == r[i];
            }
          }
        }
      }
    }
  }

  /** The result of the sort is ordered by the comparator. */
  lemma {:induction false} StableSortSorted<T(!new)>(s: seq<T>, le: (T, T) -> bool)
    requires Total(le) && Transitive(le)
    ensures SortedBy(StableSort(s, le), le)
  {
    if s != [] {
      StableSortSorted(s[..|s| - 1], le);
      InsertKeepsSorted(s[|s| - 1], StableSort(s[..|s| - 1], le), le);
    }
  }

  /** An input that is already in order is left exactly as it is. */
  lemma {:induction false} StableSortOfSorted<T>(s: seq<T>, le: (T, T) -> bool)
    requires SortedBy(s, le)
    ensures StableSort(s, le) == s
  {
    if s != [] {
      var init := s[..|s| - 1];
      assert SortedBy(init, le);
      StableSortOfSorted(init, le);
      if init != [] {
        assert le(init[|init| - 1], s[|s| - 1]);
      }
      assert init + [s[|s| - 1]] == s;
    }
  }

  /** The elements the comparator does not tell apart from `z`. */
  function Equivalent<T>(le: (T, T) -> bool, z: T): T -> bool {
    e => le(z, e) && le(e, z)
  }

  /** Inserting `x` puts it behind every element equivalent to it, so among
      the elements of one equivalence class it comes last. */
  lemma {:induction false} InsertEquivalents<T(!new)>(x: T, s: seq<T>, le: (T, T) -> bool, z: T)
    requires Transitive(le)
    ensures Filter(Insert(x, s, le), Equivalent(le, z)) == Filter(s, Equivalent(le, z)) + Filter([x], Equivalent(le, z))
  {
    if s == [] || le(s[|s| - 1], x) {
      InsertAtEnd(x, s, le, Equivalent(le, z));
    } else {
      InsertEquivalents(x, s[..|s| - 1], le, z);
      NotBothEquivalent(x, s[|s| - 1], le, z);
      InsertInFront(x, s, le, Equivalent(le, z));
    }
  }

  /** The case of `Insert` that appends `x`. */
  lemma InsertAtEnd<T>(x: T, s: seq<T>, le: (T, T) -> bool, p: T -> bool)
    requires s == [] || le(s[|s| - 1], x)
    ensures Filter(Insert(x, s, le), p) == Filter(s, p) + Filter([x], p)
  {
    assert Insert(x, s, le) == s + [x];
    FilterAppend(s, [x], p);
  }

  /** The case of `Insert` that goes on in front of the last element. */
  lemma InsertInFront<T>(x: T, s: seq<T>, le: (T, T) -> bool, p: T -> bool)
    requires s != [] && !le(s[|s| - 1], x)
    requires Filter(Insert(x, s[..|s| - 1], le), p) == Filter(s[..|s| - 1], p) + Filter([x], p)
    requires !(p(x) && p(s[|s| - 1]))
    ensures Filter(Insert(x, s, le), p) == Filter(s, p) + Filter([x], p)
  {
    var init, last := s[..|s| - 1], s[|s| - 1];
    InsertInFrontOfLast(x, s, le);
    SplitLast(s);
    FilterBehind(Insert(x, init, le), init, x, last, p, Insert(x, s, le), s);
  }

  lemma InsertInFrontOfLast<T>(x: T, s: seq<T>, le: (T, T) -> bool)
    requires s != [] && !le(s[|s| - 1], x)
    ensures Insert(x, s, le) == Insert(x, s[..|s| - 1], le) + [s[|s| - 1]]
  {
  }

  /** A non-empty sequence is its front followed by its last element. */
  lemma SplitLast<T>(s: seq<T>)
    requires s != []
    ensures s == s[..|s| - 1] + [s[|s| - 1]]
  {
    var init, last := s[..|s| - 1], s[|s| - 1];
    assert |init + [last]| == |s|;
    assert forall i :: 0 <= i < |s| ==> (init + [last])[i] == s[i];
  }

  /** Appending `y` behind `x` when the filter does not keep both. */
  lemma FilterBehind<T>(a: seq<T>, init: seq<T>, x: T, y: T, p: T -> bool, whole: seq<T>, s: seq<T>)
    requires Filter(a, p) == Filter(init, p) + Filter([x], p)
    requires !(p(x) && p(y))
    requires whole == a + [y] && s == init + [y]
    ensures Filter(whole, p) == Filter(s, p) + Filter([x], p)
  {
    FilterAppend(a, [y], p);
    FilterAppend(init, [y], p);
    SwapFiltered(x, y, p);
  }

  /** Two elements of which the first is not below the second are not both
      equivalent to `z`. */
  lemma NotBothEquivalent<T(!new)>(x: T, y: T, le: (T, T) -> bool, z: T)
    requires Transitive(le) && !le(y, x)
    ensures !(Equivalent(le, z)(x) && Equivalent(le, z)(y))
  {
    if le(y, z) && le(z, x) {
      assert false;
    }
  }

  /** Two single elements that the filter does not both keep come out in
      either order. */
  lemma SwapFiltered<T>(x: T, y: T, p: T -> bool)
    requires !(p(x) && p(y))
    ensures Filter([x], p) + Filter([y], p) == Filter([y], p) + Filter([x], p)
  {
    FilterOne(x, p);
    FilterOne(y, p);
  }

  /** Stability: the sort keeps the input order of the elements of every
      equivalence class of the comparator. */
  lemma {:induction false} StableSortEquivalents<T(!new)>(s: seq<T>, le: (T, T) -> bool, z: T)
    requires Transitive(le)
    ensures Filter(StableSort(s, le), Equivalent(le, z)) == Filter(s, Equivalent(le, z))
  {
    if s != [] {
      var init, last := s[..|s| - 1], s[|s| - 1];
      assert s == init + [last];
      assert StableSort(s, le) == Insert(last, StableSort(init, le), le);
      StableSortEquivalents(init, le, z);
      InsertEquivalents(last, StableSort(init, le), le, z);
      FilterAppendOne(init, last, Equivalent(le, z));
    }
  }

  lemma FilterAppendOne<T>(s: seq<T>, y: T, p: T -> bool)
    ensures Filter(s + [y], p) == Filter(s, p) + Filter([y], p)
  {
    FilterAppend(s, [y], p);
  }
}
