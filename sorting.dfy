/**
 * `Array.prototype.sort` with a comparator, modelled as an insertion sort.
 * `before(a, b)` is "the comparator returns a negative number for (a, b)".
 * The lemmas here state that the result is a permutation of the input and
 * sorted; JavaScript's further promise of stability is not stated.
 */
module Sorting {

  /** `before` is irreflexive and transitive, as every comparator in the sources is. */
  ghost predicate StrictOrder<T(!new)>(before: (T, T) -> bool) {
    (forall a :: !before(a, a))
    && (forall a, b, c :: before(a, b) && before(b, c) ==> before(a, c))
  }

  /** No element at two positions. */
  predicate Distinct<T(==)>(s: seq<T>) {
    forall i, j :: 0 <= i < j < |s| ==> s[i] != s[j]
  }

  /** A sequence of pairwise different entries holds each of them once. */
  lemma {:induction false} DistinctCountsOnce<T>(s: seq<T>)
    requires Distinct(s)
    ensures forall x :: multiset(s)[x] <= 1
  {
    if |s| > 0 {
      DistinctCountsOnce(s[1..]);
      assert s == [s[0]] + s[1..];
      assert s[0] !in multiset(s[1..]) by {
        forall k | 0 <= k < |s[1..]| ensures s[1..][k] != s[0] {
          assert s[1..][k] == s[k + 1];
        }
      }
    }
  }

  /** A sequence that holds each entry at most once has no entry at two positions. */
  lemma {:induction false} CountedOnceDistinct<T>(s: seq<T>)
    requires forall x :: multiset(s)[x] <= 1
    ensures Distinct(s)
  {
    forall i, j | 0 <= i < j < |s| ensures s[i] != s[j] {
      assert s == s[..j] + [s[j]] + s[j + 1..];
      assert s[i] in multiset(s[..j]) by {
        assert s[..j][i] == s[i];
      }
      assert multiset(s)[s[j]] == multiset(s[..j])[s[j]] + 1 + multiset(s[j + 1..])[s[j]];
    }
  }

  /** No element is strictly before an element to its left. */
  ghost predicate SortedBy<T>(s: seq<T>, before: (T, T) -> bool) {
    forall i, j :: 0 <= i < j < |s| ==> !before(s[j], s[i])
  }

  /** Places `x` in front of the first element it is strictly before, so it lands after its equals. */
  function Insert<T>(x: T, s: seq<T>, before: (T, T) -> bool): (r: seq<T>)
    ensures multiset(r) == multiset(s) + multiset{x}
    ensures |r| == |s| + 1
  {
    if |s| == 0 then [x]
    else if before(x, s[0]) then [x] + s
    else
      assert s == [s[0]] + s[1..];
      [s[0]] + Insert(x, s[1..], before)
  }

  /** The insertion sort of `s` under `before`: a permutation of `s`. */
  function SortWith<T>(s: seq<T>, before: (T, T) -> bool): (r: seq<T>)
    ensures multiset(r) == multiset(s)
    ensures |r| == |s|
  {
    if |s| == 0 then []
    else
      assert s == s[..|s| - 1] + [s[|s| - 1]];
      Insert(s[|s| - 1], SortWith(s[..|s| - 1], before), before)
  }

  /** The last element of `s` is inserted into the sorted rest. */
  lemma {:induction false} SortWithUnfold<T>(s: seq<T>, before: (T, T) -> bool)
    requires |s| > 0
    ensures SortWith(s, before) == Insert(s[|s| - 1], SortWith(s[..|s| - 1], before), before)
  {
  }

  /** A property every element has, and `x` too, holds of every element after inserting `x`. */
  lemma {:induction false} InsertKeepsAll<T>(x: T, s: seq<T>, before: (T, T) -> bool, p: T -> bool)
    requires p(x) && forall k :: 0 <= k < |s| ==> p(s[k])
    ensures forall k :: 0 <= k < |Insert(x, s, before)| ==> p(Insert(x, s, before)[k])
  {
    if |s| > 0 && !before(x, s[0]) {
      InsertKeepsAll(x, s[1..], before, p);
      assert Insert(x, s, before) == [s[0]] + Insert(x, s[1..], before);
    }
  }

  /** A property every element has still holds of every element after sorting. */
  lemma {:induction false} SortWithKeepsAll<T>(s: seq<T>, before: (T, T) -> bool, p: T -> bool)
    requires forall k :: 0 <= k < |s| ==> p(s[k])
    ensures forall k :: 0 <= k < |SortWith(s, before)| ==> p(SortWith(s, before)[k])
  {
    if |s| > 0 {
      var q := s[..|s| - 1];
      SortWithKeepsAll(q, before, p);
      SortWithUnfold(s, before);
      InsertKeepsAll(s[|s| - 1], SortWith(q, before), before, p);
    }
  }

  /** An element no element of `s`, nor `x`, is before stays unpreceded after inserting `x`. */
  lemma {:induction false} InsertKeepsNotBefore<T>(x: T, s: seq<T>, y: T, before: (T, T) -> bool)
    requires !before(x, y) && forall k :: 0 <= k < |s| ==> !before(s[k], y)
    ensures forall k :: 0 <= k < |Insert(x, s, before)| ==> !before(Insert(x, s, before)[k], y)
  {
    if |s| > 0 && !before(x, s[0]) {
      InsertKeepsNotBefore(x, s[1..], y, before);
      assert Insert(x, s, before) == [s[0]] + Insert(x, s[1..], before);
    }
  }

  lemma {:induction false} InsertSorted<T(!new)>(x: T, s: seq<T>, before: (T, T) -> bool)
    requires StrictOrder(before) && SortedBy(s, before)
    ensures SortedBy(Insert(x, s, before), before)
  {
    if |s| > 0 {
      if before(x, s[0]) {
        var r := [x] + s;
        forall i, j | 0 <= i < j < |r| ensures !before(r[j], r[i]) {
          if i == 0 {
            assert r[j] == s[j - 1];
            assert j - 1 == 0 || !before(s[j - 1], s[0]);
          }
        }
      } else {
        InsertSorted(x, s[1..], before);
        var tail := Insert(x, s[1..], before);
        InsertKeepsNotBefore(x, s[1..], s[0], before);
        var r := [s[0]] + tail;
        forall i, j | 0 <= i < j < |r| ensures !before(r[j], r[i]) {
          if i == 0 {
            assert r[j] == tail[j - 1];
          } else {
            assert r[j] == tail[j - 1] && r[i] == tail[i - 1];
          }
        }
      }
    }
  }

  /** The sort puts the elements in order. */
  lemma {:induction false} SortWithSorted<T(!new)>(s: seq<T>, before: (T, T) -> bool)
    requires StrictOrder(before)
    ensures SortedBy(SortWith(s, before), before)
  {
    if |s| > 0 {
      SortWithSorted(s[..|s| - 1], before);
      InsertSorted(s[|s| - 1], SortWith(s[..|s| - 1], before), before);
    }
  }

  /** An element that is strictly before none of `s` is inserted at the end. */
  lemma {:induction false} InsertAtEnd<T>(x: T, s: seq<T>, before: (T, T) -> bool)
    requires forall i :: 0 <= i < |s| ==> !before(x, s[i])
    ensures Insert(x, s, before) == s + [x]
  {
    if |s| > 0 {
      InsertAtEnd(x, s[1..], before);
      assert [s[0]] + (s[1..] + [x]) == s + [x];
    }
  }

  /** Sorting a sequence that is already in order changes nothing. */
  lemma {:induction false} SortWithSortedIsIdentity<T>(s: seq<T>, before: (T, T) -> bool)
    requires SortedBy(s, before)
    ensures SortWith(s, before) == s
  {
    if |s| > 0 {
      var p, x := s[..|s| - 1], s[|s| - 1];
      calc {
        SortWith(s, before);
        { SortWithUnfold(s, before); }
        Insert(x, SortWith(p, before), before);
        { SortedSplitsLast(s, before); SortWithSortedIsIdentity(p, before); }
        Insert(x, p, before);
        { SortedSplitsLast(s, before); InsertAtEnd(x, p, before); }
        p + [x];
      }
      assert p + [x] == s;
    }
  }

  /** A sorted sequence is its sorted front followed by a last element that is before none of the front. */
  lemma {:induction false} SortedSplitsLast<T>(s: seq<T>, before: (T, T) -> bool)
    requires SortedBy(s, before) && |s| > 0
    ensures SortedBy(s[..|s| - 1], before)
    ensures forall i :: 0 <= i < |s| - 1 ==> !before(s[|s| - 1], s[i])
  {
    var p := s[..|s| - 1];
    forall i, j | 0 <= i < j < |p| ensures !before(p[j], p[i]) {
      assert p[i] == s[i] && p[j] == s[j];
    }
  }
}
